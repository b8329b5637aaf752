/** The D-Bus frames between the managers: writer (common/src/DBus/ISenderFactory.cpp) and reader
 * (common/src/Thread/DBusReceiverBase.cpp). A message is a list of typed arguments, as the D-Bus
 * Specification's section "Type System" has them; byte marshalling belongs to libdbus. */
module Wire {
  import opened Wrappers

  datatype Argument = Int32(i: int) | Boolean(b: bool) | StringArray(ss: seq<string>) | Other

  type Message = seq<Argument>

  // DBusDataInfo
  const DBUS_DATA_MAX := 24
  const DBUS_DATA_BT_DEVICE_ADDRESS := 3

  type DataInfo = ss: seq<string> | |ss| == DBUS_DATA_MAX witness DEFAULT_INFO

  /** The constructor's values: "0.0" for the temperature, "0" for RSSI and duration, "" elsewhere. */
  const DEFAULT_INFO: seq<string> :=
    ["", "0.0", "", "", "0", "", "", "", "", "", "", "", "", "", "", "", "", "", "", "", "", "", "", "0"]

  datatype Received = Command(cmd: int) | Notification(command: int, success: bool, info: DataInfo)

  predicate NulFree(s: string) {
    forall i | 0 <= i < |s| :: s[i] != '\0'
  }

  /** What c_str() shows of a string: everything before the first NUL. */
  function CStr(s: string): (r: string)
    ensures r <= s && NulFree(r)
    ensures r == s <==> NulFree(s)
    ensures r != s ==> s[|r|] == '\0'
  {
    if s == [] || s[0] == '\0' then [] else
      assert s == [s[0]] + s[1..];
      [s[0]] + CStr(s[1..])
  }

  function CStrs(ss: seq<string>): seq<string> {
    seq(|ss|, i requires 0 <= i < |ss| => CStr(ss[i]))
  }

  function EncodeCommand(cmd: int): Message {
    [Int32(cmd)]
  }

  function EncodeNoti(cmd: int, success: bool, info: DataInfo): Message {
    [Int32(cmd), Boolean(success), StringArray(CStrs(info))]
  }

  method MakeMsgNoti(cmd: int, success: bool, info: DataInfo) returns (msg: Message)
    ensures msg == EncodeNoti(cmd, success, info)
  {
    var strings: seq<string> := [];
    for i := 0 to DBUS_DATA_MAX
      invariant |strings| == i && forall k | 0 <= k < i :: strings[k] == CStr(info[k])
    {
      strings := strings + [CStr(info[i])];
    }
    assert strings == CStrs(info);
    msg := [Int32(cmd), Boolean(success), StringArray(strings)];
  }

  /** The default values, overwritten by what the array brings; surplus strings are ignored. */
  function Fill(ss: seq<string>): DataInfo {
    seq(DBUS_DATA_MAX, i requires 0 <= i < DBUS_DATA_MAX => if i < |ss| then ss[i] else DEFAULT_INFO[i])
  }

  function Decode(msg: Message): Option<Received>
  {
    if |msg| == 1 && msg[0].Int32? then Some(Command(msg[0].i))
    else if |msg| == 3 && msg[0].Int32? && msg[1].Boolean? && msg[2].StringArray? then
      Some(Notification(msg[0].i, msg[1].b, Fill(msg[2].ss)))
    else None
  }

  method DispatchMessage(msg: Message) returns (r: Option<Received>)
    ensures r == Decode(msg)
  {
    if |msg| == 1 && msg[0].Int32? {
      return Some(Command(msg[0].i));
    }
    if |msg| == 3 && msg[0].Int32? && msg[1].Boolean? && msg[2].StringArray? {
      var ss := msg[2].ss;
      var data := new string[DBUS_DATA_MAX](k requires 0 <= k < DBUS_DATA_MAX => DEFAULT_INFO[k]);
      var i := 0;
      while i < |ss| && i < DBUS_DATA_MAX
        invariant 0 <= i <= |ss| && i <= DBUS_DATA_MAX
        invariant forall k | 0 <= k < DBUS_DATA_MAX :: data[k] == if k < i then ss[k] else DEFAULT_INFO[k]
      {
        data[i] := ss[i];
        i := i + 1;
      }
      assert data[..] == Fill(ss);
      return Some(Notification(msg[0].i, msg[1].b, data[..]));
    }
    return None;
  }

  datatype TypeCode = INT32 | BOOLEAN | ARRAY_OF_STRING | OTHER_TYPE

  function TypeOf(a: Argument): TypeCode
  {
    match a
    case Int32(_) => INT32
    case Boolean(_) => BOOLEAN
    case StringArray(_) => ARRAY_OF_STRING
    case Other => OTHER_TYPE
  }

  function Signature(msg: Message): seq<TypeCode> {
    seq(|msg|, i requires 0 <= i < |msg| => TypeOf(msg[i]))
  }

  /** A message is read exactly when its signature is "i" or "ibas", and it is a command exactly when it is
      the frame of that command. */
  lemma ReadBySignature(msg: Message, cmd: int)
    ensures Decode(msg).Some? <==> Signature(msg) == [INT32] || Signature(msg) == [INT32, BOOLEAN, ARRAY_OF_STRING]
    ensures Decode(msg) == Some(Command(cmd)) <==> msg == EncodeCommand(cmd)
  {
    if |msg| == 1 {
      assert Signature(msg) == [TypeOf(msg[0])];
    } else if |msg| == 3 {
      assert Signature(msg) == [TypeOf(msg[0]), TypeOf(msg[1]), TypeOf(msg[2])];
    }
  }

  /** Decoding undoes encoding up to the C strings, and exactly when no field holds a NUL. */
  lemma FrameRoundTrip(cmd: int, success: bool, info: DataInfo)
    ensures Decode(EncodeNoti(cmd, success, info)) == Some(Notification(cmd, success, CStrs(info)))
    ensures Decode(EncodeNoti(cmd, success, info)) == Some(Notification(cmd, success, info))
       <==> forall i | 0 <= i < DBUS_DATA_MAX :: NulFree(info[i])
  {
    assert Fill(CStrs(info)) == CStrs(info);
    if CStrs(info) == info {
      forall i | 0 <= i < DBUS_DATA_MAX
        ensures NulFree(info[i])
      {
        assert CStrs(info)[i] == CStr(info[i]);
      }
    }
  }

  /** A frame that brings fewer strings leaves the other fields at their defaults; surplus ones are dropped. */
  lemma MissingFields(cmd: int, success: bool, ss: seq<string>)
    ensures var r := Decode([Int32(cmd), Boolean(success), StringArray(ss)]);
            && r.Some? && r.value.Notification? && r.value.command == cmd && r.value.success == success
            && forall i | 0 <= i < 24 ::
                 r.value.info[i] ==
                 if i < |ss| then ss[i] else if i == 1 then "0.0" else if i == 4 || i == 23 then "0" else ""
  {
  }

  function AddressInfo(address: string): DataInfo {
    DEFAULT_INFO[DBUS_DATA_BT_DEVICE_ADDRESS := address]
  }

  /** The address field arrives as the C string of what was sent. */
  lemma AddressArrives(cmd: int, address: string)
    ensures var r := Decode(EncodeNoti(cmd, true, AddressInfo(address)));
            r.Some? && r.value.Notification? && r.value.command == cmd
            && r.value.info[DBUS_DATA_BT_DEVICE_ADDRESS] == CStr(address)
  {
    FrameRoundTrip(cmd, true, AddressInfo(address));
  }
}
