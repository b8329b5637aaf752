/** Device addresses and BlueZ object paths (hardwaremgr/src/BT/BluezDBus.cpp, BluetoothAgent.cpp,
 * BluetoothWorker.cpp). */
module BluezPath {
  import opened Wrappers

  const MARK := "dev_"

  /** std::replace over a whole string. */
  function Replace(s: string, from: char, to: char): string {
    seq(|s|, i requires 0 <= i < |s| => if s[i] == from then to else s[i])
  }

  /** std::replace rewrites its range in place. */
  method ReplaceInPlace(a: array<char>, from: char, to: char)
    modifies a
    ensures a[..] == Replace(old(a[..]), from, to)
  {
    var i := 0;
    while i < a.Length
      invariant 0 <= i <= a.Length
      invariant forall k | 0 <= k < i :: a[k] == if old(a[k]) == from then to else old(a[k])
      invariant forall k | i <= k < a.Length :: a[k] == old(a[k])
    {
      if a[i] == from {
        a[i] := to;
      }
      i := i + 1;
    }
  }

  predicate MarkAt(s: string, i: int) {
    0 <= i && i + |MARK| <= |s| && s[i..i + |MARK|] == MARK
  }

  /** std::string::find("dev_"). */
  function FindFirst(s: string, from: nat): (r: Option<nat>)
    requires from <= |s|
    ensures r.Some? ==> from <= r.value && MarkAt(s, r.value) && forall i | from <= i < r.value :: !MarkAt(s, i)
    ensures r.None? ==> forall i | from <= i :: !MarkAt(s, i)
    decreases |s| - from
  {
    if MarkAt(s, from) then Some(from)
    else if from == |s| then None
    else FindFirst(s, from + 1)
  }

  /** std::string::rfind("dev_"): the last match before `end`. */
  function FindLast(s: string, end: nat): (r: Option<nat>)
    ensures r.Some? ==> r.value < end && MarkAt(s, r.value) && forall i | r.value < i < end :: !MarkAt(s, i)
    ensures r.None? ==> forall i | 0 <= i < end :: !MarkAt(s, i)
    decreases end
  {
    if end == 0 then None
    else if MarkAt(s, end - 1) then Some(end - 1)
    else FindLast(s, end - 1)
  }

  /** BluezDBus::deviceAddressToObjectPath. */
  function ObjectPath(adapterPath: string, address: string): string {
    adapterPath + "/" + MARK + Replace(address, ':', '_')
  }

  method DeviceAddressToObjectPath(adapterPath: string, address: string) returns (path: string)
    ensures path == ObjectPath(adapterPath, address)
  {
    path := adapterPath + "/dev_";
    var copy := new char[|address|](i requires 0 <= i < |address| => address[i]);
    assert copy[..] == address;
    ReplaceInPlace(copy, ':', '_');
    path := path + copy[..];
  }

  function AfterMark(path: string, pos: nat): string
    requires MarkAt(path, pos)
  {
    Replace(path[pos + |MARK|..], '_', ':')
  }

  /** BluetoothAgent::handleRequestConfirmation: the address after the last "dev_", empty if none. */
  function LastAddress(path: string): string {
    match FindLast(path, |path|)
    case None => ""
    case Some(pos) => AfterMark(path, pos)
  }

  method ExtractAddress(path: string) returns (address: string)
    ensures address == LastAddress(path)
  {
    address := "";
    var pos := FindLast(path, |path|);
    if pos.Some? {
      var tail := path[pos.value + |MARK|..];
      var copy := new char[|tail|](i requires 0 <= i < |tail| => tail[i]);
      assert copy[..] == tail;
      ReplaceInPlace(copy, '_', ':');
      address := copy[..];
    }
  }

  /** BluetoothWorker::handleInterfacesRemoved: the address after the first "dev_". */
  function FirstAddress(path: string): Option<string> {
    match FindFirst(path, 0)
    case None => None
    case Some(pos) => Some(AfterMark(path, pos))
  }

  predicate IsHexOrColon(c: char) {
    '0' <= c <= '9' || 'A' <= c <= 'F' || 'a' <= c <= 'f' || c == ':'
  }

  predicate IsAddress(address: string) {
    forall i | 0 <= i < |address| :: IsHexOrColon(address[i])
  }

  predicate ContainsMark(s: string) {
    exists i :: 0 <= i < |s| && MarkAt(s, i)
  }

  /** Where "dev_" occurs in a built path: in the adapter path, or right after it, nowhere else. */
  lemma MarksOfPath(adapterPath: string, address: string, i: int)
    requires IsAddress(address)
    ensures MarkAt(ObjectPath(adapterPath, address), i) <==> MarkAt(adapterPath, i) || i == |adapterPath| + 1
  {
    var path := ObjectPath(adapterPath, address);
    var n := |adapterPath|;
    assert path[n] == '/';
    assert path[n + 1..n + 5] == MARK;
    assert path[..n] == adapterPath;
    assert forall k | n + 4 <= k < |path| :: path[k] != 'v';
    if MarkAt(path, i) {
      assert path[i..i + 4][0] == path[i] && path[i..i + 4][1] == path[i + 1];
      assert path[i..i + 4][2] == path[i + 2] && path[i..i + 4][3] == path[i + 3];
      assert i + 4 <= n || i == n + 1;
    }
    if MarkAt(adapterPath, i) {
      assert path[i..i + 4] == adapterPath[i..i + 4];
    }
  }

  lemma TailOfPath(adapterPath: string, address: string)
    requires IsAddress(address)
    ensures MarkAt(ObjectPath(adapterPath, address), |adapterPath| + 1)
    ensures AfterMark(ObjectPath(adapterPath, address), |adapterPath| + 1) == address
  {
    var path := ObjectPath(adapterPath, address);
    MarksOfPath(adapterPath, address, |adapterPath| + 1);
    assert path[|adapterPath| + 5..] == Replace(address, ':', '_');
  }

  /** Last-match extraction returns the address that built the path, whatever the adapter path. */
  lemma LastMatchRoundTrip(adapterPath: string, address: string)
    requires IsAddress(address)
    ensures LastAddress(ObjectPath(adapterPath, address)) == address
  {
    var path := ObjectPath(adapterPath, address);
    TailOfPath(adapterPath, address);
    var found := FindLast(path, |path|);
    if found.Some? {
      MarksOfPath(adapterPath, address, found.value);
    }
  }

  /** First-match extraction returns it exactly when the adapter path holds no "dev_" of its own. */
  lemma FirstMatchRoundTrip(adapterPath: string, address: string)
    requires IsAddress(address)
    ensures FirstAddress(ObjectPath(adapterPath, address)) == Some(address) <==> !ContainsMark(adapterPath)
  {
    var path := ObjectPath(adapterPath, address);
    TailOfPath(adapterPath, address);
    var found := FindFirst(path, 0);
    MarksOfPath(adapterPath, address, found.value);
    if ContainsMark(adapterPath) {
      var i :| 0 <= i < |adapterPath| && MarkAt(adapterPath, i);
      MarksOfPath(adapterPath, address, i);
      assert |AfterMark(path, found.value)| > |address|;
    }
  }

  /** No two addresses share a path. */
  lemma PathsAreDistinct(adapterPath: string, a: string, b: string)
    requires IsAddress(a) && IsAddress(b) && ObjectPath(adapterPath, a) == ObjectPath(adapterPath, b)
    ensures a == b
  {
    LastMatchRoundTrip(adapterPath, a);
    LastMatchRoundTrip(adapterPath, b);
  }
}
