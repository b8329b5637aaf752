/** Device commands from a client to hardwaremgr's workers: client message -> core's event queue ->
 * core's MainWorker -> D-Bus frame -> hardwaremgr's receiver -> its event queue -> its MainWorker. */
module CommandPipeline {
  import opened Wrappers
  import opened Wire

  datatype Op = PAIR | UNPAIR | CONNECT | DISCONNECT | ACCEPT | REJECT

  /** One device operation, as a client asked for it or as hardwaremgr carries it out. */
  datatype DeviceOp = DeviceOp(op: Op, address: string)

  // ---------------------------------------------------------------- client messages

  datatype Json = JString(s: string) | JNumber | JOther

  /** A message as json::parse sees it. A "data" member that is no object has no fields. */
  datatype ClientMessage =
    | NotJson
    | NoCommand
    | CommandNotString
    | Asks(command: string, data: map<string, Json>)

  /** What core's queue holds, as far as it concerns devices. */
  datatype CoreEvent =
    | FromClient(what: DeviceOp)
    | Timeout(address: string)   // BTDEVICE_REQUEST_CONFIRMATION_TIMEOUT
    | Confirm(address: string)   // BTDEVICE_REQUEST_CONFIRMATION_NOTI
    | Unrelated

  function StringField(data: map<string, Json>, key: string): Option<string> {
    if key in data && data[key].JString? then Some(data[key].s) else None
  }

  function DeviceCommand(command: string): Option<Op>
  {
    if command == "pair_btdevice" then Some(PAIR)
    else if command == "unpair_btdevice" then Some(UNPAIR)
    else if command == "connect_btdevice" then Some(CONNECT)
    else if command == "disconnect_btdevice" then Some(DISCONNECT)
    else if command == "accept_request_confirmation" then Some(ACCEPT)
    else if command == "reject_request_confirmation" then Some(REJECT)
    else None
  }

  const PLAIN_COMMANDS := {
    "start_scan_btdevice", "stop_scan_btdevice", "bluetooth_power_on", "bluetooth_power_off",
    "hangup_call", "answer_call", "start_record", "stop_record", "cancel_record", "get_all_record"}

  function TranslateMsg(command: string, data: map<string, Json>): Option<CoreEvent>
  {
    match DeviceCommand(command)
    case Some(op) =>
      (match StringField(data, "device_address")
       case Some(address) => Some(FromClient(DeviceOp(op, address)))
       case None => None)
    case None =>
      if command == "dial_call" then (if StringField(data, "number").Some? then Some(Unrelated) else None)
      else if command == "remove_record" then (if "id" in data && data["id"].JNumber? then Some(Unrelated) else None)
      else if command in PLAIN_COMMANDS then Some(Unrelated)
      else None
  }

  function EventOf(m: ClientMessage): seq<CoreEvent> {
    if m.Asks? then (match TranslateMsg(m.command, m.data) case Some(e) => [e] case None => []) else []
  }

  // ---------------------------------------------------------------- what clients mean

  /** The names of the device operations in the clients' protocol. */
  function NameOf(op: Op): string
  {
    match op
    case PAIR => "pair_btdevice"
    case UNPAIR => "unpair_btdevice"
    case CONNECT => "connect_btdevice"
    case DISCONNECT => "disconnect_btdevice"
    case ACCEPT => "accept_request_confirmation"
    case REJECT => "reject_request_confirmation"
  }

  const OPERATIONS: seq<Op> := [PAIR, UNPAIR, CONNECT, DISCONNECT, ACCEPT, REJECT]

  /** The message asks for `what`. */
  predicate AsksFor(m: ClientMessage, what: DeviceOp)
  {
    m.Asks? && m.command == NameOf(what.op)
    && "device_address" in m.data && m.data["device_address"] == JString(what.address)
  }

  function Named(command: string, address: string, ops: seq<Op>): seq<DeviceOp>
  {
    if ops == [] then []
    else (if NameOf(ops[0]) == command then [DeviceOp(ops[0], address)] else []) + Named(command, address, ops[1..])
  }

  /** The device operation a message asks for, if any. */
  function Asked(m: ClientMessage): seq<DeviceOp>
  {
    if m.Asks? && "device_address" in m.data && m.data["device_address"].JString? then
      Named(m.command, m.data["device_address"].s, OPERATIONS)
    else []
  }

  lemma NamesDiffer(a: Op, b: Op)
    ensures NameOf(a) == NameOf(b) ==> a == b
  {
    assert NameOf(a)[0] == NameOf(b)[0] ==> a == b;
  }

  lemma {:induction false} NamedIs(command: string, address: string, ops: seq<Op>, op: Op)
    requires command == NameOf(op) && forall i, j | 0 <= i < j < |ops| :: ops[i] != ops[j]
    ensures Named(command, address, ops) == if op in ops then [DeviceOp(op, address)] else []
  {
    if ops == [] {
    } else {
      NamesDiffer(ops[0], op);
      NamedIs(command, address, ops[1..], op);
      assert ops == [ops[0]] + ops[1..];
    }
  }

  lemma {:induction false} NamedNone(command: string, address: string, ops: seq<Op>)
    requires forall op :: command != NameOf(op)
    ensures Named(command, address, ops) == []
  {
    if ops == [] {
    } else {
      NamedNone(command, address, ops[1..]);
    }
  }

  lemma CommandIs(command: string, op: Op)
    ensures DeviceCommand(command) == Some(op) <==> command == NameOf(op)
  {
  }

  /** A client message of an operation's name becomes exactly that operation, with its address; any other
      message yields no device operation. */
  lemma MessageMeans(m: ClientMessage)
    ensures forall what :: AsksFor(m, what) ==> EventOf(m) == [FromClient(what)]
    ensures FromClients(EventOf(m)) == Asked(m)
  {
    if m.Asks? {
      forall op
        ensures DeviceCommand(m.command) == Some(op) <==> m.command == NameOf(op)
      {
        CommandIs(m.command, op);
      }
      var address := StringField(m.data, "device_address");
      if address.Some? {
        match DeviceCommand(m.command) {
          case Some(op) =>
            NamedIs(m.command, address.value, OPERATIONS, op);
            assert op in OPERATIONS by {
              assert OPERATIONS[0] == PAIR && OPERATIONS[1] == UNPAIR && OPERATIONS[2] == CONNECT;
              assert OPERATIONS[3] == DISCONNECT && OPERATIONS[4] == ACCEPT && OPERATIONS[5] == REJECT;
            }
          case None => NamedNone(m.command, address.value, OPERATIONS);
        }
      }
    }
  }

  /** The commands with their fields: these messages reach core's queue, as one event each. */
  predicate IsValid(m: ClientMessage)
  {
    m.Asks? &&
    (|| ((exists op :: m.command == NameOf(op)) && StringField(m.data, "device_address").Some?)
     || (m.command == "dial_call" && StringField(m.data, "number").Some?)
     || (m.command == "remove_record" && "id" in m.data && m.data["id"].JNumber?)
     || m.command == "start_scan_btdevice" || m.command == "stop_scan_btdevice"
     || m.command == "bluetooth_power_on" || m.command == "bluetooth_power_off"
     || m.command == "hangup_call" || m.command == "answer_call"
     || m.command == "start_record" || m.command == "stop_record" || m.command == "cancel_record"
     || m.command == "get_all_record")
  }

  lemma ValidMessagesArrive(m: ClientMessage)
    ensures |EventOf(m)| == if IsValid(m) then 1 else 0
  {
    if m.Asks? {
      forall op
        ensures DeviceCommand(m.command) == Some(op) <==> m.command == NameOf(op)
      {
        CommandIs(m.command, op);
      }
    }
  }

  // ---------------------------------------------------------------- command codes

  /** The positions in the DBusCommand enumeration. */
  function Code(op: Op): int
  {
    match op
    case PAIR => 6
    case UNPAIR => 7
    case CONNECT => 8
    case DISCONNECT => 9
    case REJECT => 10
    case ACCEPT => 11
  }

  function OpOf(code: int): Option<Op>
  {
    if code == 6 then Some(PAIR)
    else if code == 7 then Some(UNPAIR)
    else if code == 8 then Some(CONNECT)
    else if code == 9 then Some(DISCONNECT)
    else if code == 10 then Some(REJECT)
    else if code == 11 then Some(ACCEPT)
    else None
  }

  function FrameOf(what: DeviceOp): Message {
    EncodeNoti(Code(what.op), true, AddressInfo(what.address))
  }

  /** hardwaremgr's DBusReceiver: the events one frame becomes. */
  function Arrives(msg: Message): seq<DeviceOp>
  {
    match Decode(msg)
    case Some(Notification(code, _, info)) =>
      (match OpOf(code)
       case Some(op) => [DeviceOp(op, info[DBUS_DATA_BT_DEVICE_ADDRESS])]
       case None => [])
    case _ => []
  }

  /** What core's MainWorker sends for one event. */
  function Handled(e: CoreEvent): seq<DeviceOp>
  {
    match e
    case FromClient(what) => [what]
    case Timeout(address) => [DeviceOp(REJECT, address)]
    case Confirm(_) => []
    case Unrelated => []
  }

  // ---------------------------------------------------------------- the system

  datatype System = System(
    coreQueue: seq<CoreEvent>,
    channel: seq<Message>,
    hwQueue: seq<DeviceOp>,
    executed: seq<DeviceOp>,   // history: handed to BluezDBus or to the agent, in order
    issued: seq<DeviceOp>,     // history: valid client commands, in order
    entered: seq<DeviceOp>)    // history: client commands and timeout rejections, in the order of core's queue

  datatype Action =
    | ClientSays(m: ClientMessage)
    | Enqueue(e: CoreEvent)    // a receiver or the timer pushes onto core's queue
    | CoreStep
    | Transmit
    | HwStep

  function Init(): System {
    System([], [], [], [], [], [])
  }

  function Frames(whats: seq<DeviceOp>): seq<Message>
  {
    if whats == [] then [] else [FrameOf(whats[0])] + Frames(whats[1..])
  }

  function FromClients(es: seq<CoreEvent>): seq<DeviceOp> {
    if es != [] && es[0].FromClient? then [es[0].what] else []
  }

  function Apply(s: System, a: Action): System
  {
    match a
    case ClientSays(m) =>
      var es := EventOf(m);
      s.(coreQueue := s.coreQueue + es, issued := s.issued + FromClients(es), entered := s.entered + FromClients(es))
    case Enqueue(e) =>
      if e.FromClient? then s
      else s.(coreQueue := s.coreQueue + [e], entered := s.entered + Handled(e))
    case CoreStep =>
      if s.coreQueue == [] then s
      else s.(coreQueue := s.coreQueue[1..], channel := s.channel + Frames(Handled(s.coreQueue[0])))
    case Transmit =>
      if s.channel == [] then s
      else s.(channel := s.channel[1..], hwQueue := s.hwQueue + Arrives(s.channel[0]))
    case HwStep =>
      if s.hwQueue == [] then s
      else s.(hwQueue := s.hwQueue[1..], executed := s.executed + [s.hwQueue[0]])
  }

  function Run(actions: seq<Action>): System
    decreases |actions|
  {
    if actions == [] then Init() else Apply(Run(actions[..|actions| - 1]), actions[|actions| - 1])
  }

  // ---------------------------------------------------------------- one FIFO

  /** An operation as it arrives: its address cut at the first NUL. */
  function Seen(whats: seq<DeviceOp>): seq<DeviceOp> {
    seq(|whats|, i requires 0 <= i < |whats| => DeviceOp(whats[i].op, CStr(whats[i].address)))
  }

  function InCore(q: seq<CoreEvent>): seq<DeviceOp>
  {
    if q == [] then [] else Handled(q[0]) + InCore(q[1..])
  }

  function InChannel(q: seq<Message>): seq<DeviceOp>
  {
    if q == [] then [] else Arrives(q[0]) + InChannel(q[1..])
  }

  /** The pipeline read from its far end to its near end. */
  function Pipeline(s: System): seq<DeviceOp> {
    s.executed + s.hwQueue + InChannel(s.channel) + Seen(InCore(s.coreQueue))
  }

  /** Operations only clients ask for. Rejections also come from timeouts. */
  function Tracked(whats: seq<DeviceOp>): seq<DeviceOp>
  {
    if whats == [] then [] else (if whats[0].op == REJECT then [] else [whats[0]]) + Tracked(whats[1..])
  }

  lemma {:induction false} InCoreConcat(a: seq<CoreEvent>, b: seq<CoreEvent>)
    ensures InCore(a + b) == InCore(a) + InCore(b)
  {
    if a == [] {
      assert a + b == b;
    } else {
      assert (a + b)[1..] == a[1..] + b;
      InCoreConcat(a[1..], b);
    }
  }

  lemma {:induction false} InChannelConcat(a: seq<Message>, b: seq<Message>)
    ensures InChannel(a + b) == InChannel(a) + InChannel(b)
  {
    if a == [] {
      assert a + b == b;
    } else {
      assert (a + b)[1..] == a[1..] + b;
      InChannelConcat(a[1..], b);
    }
  }

  lemma {:induction false} TrackedConcat(a: seq<DeviceOp>, b: seq<DeviceOp>)
    ensures Tracked(a + b) == Tracked(a) + Tracked(b)
  {
    if a == [] {
      assert a + b == b;
    } else {
      assert (a + b)[1..] == a[1..] + b;
      TrackedConcat(a[1..], b);
    }
  }

  lemma SeenConcat(a: seq<DeviceOp>, b: seq<DeviceOp>)
    ensures Seen(a + b) == Seen(a) + Seen(b)
  {
  }

  /** A frame brings exactly the operation it was made for. */
  lemma FrameBrings(what: DeviceOp)
    ensures Arrives(FrameOf(what)) == Seen([what])
  {
    AddressArrives(Code(what.op), what.address);
  }

  lemma {:induction false} FramesBring(whats: seq<DeviceOp>)
    ensures InChannel(Frames(whats)) == Seen(whats)
  {
    if whats == [] {
    } else {
      FrameBrings(whats[0]);
      FramesBring(whats[1..]);
      SeenConcat([whats[0]], whats[1..]);
      assert [whats[0]] + whats[1..] == whats;
    }
  }

  ghost predicate Inv(s: System) {
    Pipeline(s) == Seen(s.entered) && Tracked(s.entered) == Tracked(s.issued)
  }

  lemma PipelineGrows(s: System, es: seq<CoreEvent>)
    ensures Pipeline(s.(coreQueue := s.coreQueue + es)) == Pipeline(s) + Seen(InCore(es))
  {
    InCoreConcat(s.coreQueue, es);
    SeenConcat(InCore(s.coreQueue), InCore(es));
    var front := s.executed + s.hwQueue + InChannel(s.channel);
    assert forall x: seq<DeviceOp>, y: seq<DeviceOp> :: front + (x + y) == front + x + y;
  }

  lemma EnterKeeps(s: System, es: seq<CoreEvent>, t: System)
    requires Inv(s)
    requires t == s.(coreQueue := s.coreQueue + es, entered := s.entered + InCore(es), issued := t.issued)
    requires Tracked(t.issued) == Tracked(s.issued) + Tracked(InCore(es))
    ensures Inv(t)
  {
    PipelineGrows(s, es);
    assert Pipeline(t) == Pipeline(s.(coreQueue := s.coreQueue + es));
    SeenConcat(s.entered, InCore(es));
    TrackedConcat(s.entered, InCore(es));
  }

  lemma CoreStepKeeps(s: System)
    requires s.coreQueue != []
    ensures Pipeline(Apply(s, CoreStep)) == Pipeline(s)
  {
    var t := Apply(s, CoreStep);
    var sent := Handled(s.coreQueue[0]);
    InChannelConcat(s.channel, Frames(sent));
    FramesBring(sent);
    SeenConcat(sent, InCore(t.coreQueue));
    assert t.coreQueue == s.coreQueue[1..] && InCore(s.coreQueue) == sent + InCore(t.coreQueue);
    Regroup(s.executed + s.hwQueue, InChannel(s.channel), Seen(sent), Seen(InCore(t.coreQueue)));
  }

  lemma TransmitKeeps(s: System)
    requires s.channel != []
    ensures Pipeline(Apply(s, Transmit)) == Pipeline(s)
  {
    var t := Apply(s, Transmit);
    assert InChannel(s.channel) == Arrives(s.channel[0]) + InChannel(t.channel);
    Regroup(s.executed, s.hwQueue, Arrives(s.channel[0]), InChannel(t.channel));
  }

  lemma Regroup(a: seq<DeviceOp>, b: seq<DeviceOp>, c: seq<DeviceOp>, d: seq<DeviceOp>)
    ensures a + b + (c + d) == a + (b + c) + d
  {
  }

  lemma StepKeepsInv(s: System, a: Action)
    requires Inv(s)
    ensures Inv(Apply(s, a))
  {
    var t := Apply(s, a);
    match a {
      case ClientSays(m) =>
        var es := EventOf(m);
        assert InCore(es) == FromClients(es);
        TrackedConcat(s.issued, InCore(es));
        EnterKeeps(s, es, t);
      case Enqueue(e) =>
        if !e.FromClient? {
          assert InCore([e]) == Handled(e);
          EnterKeeps(s, [e], t);
        }
      case CoreStep => if s.coreQueue != [] { CoreStepKeeps(s); }
      case Transmit => if s.channel != [] { TransmitKeeps(s); }
      case HwStep =>
        if s.hwQueue != [] {
          assert s.executed + s.hwQueue == s.executed + [s.hwQueue[0]] + s.hwQueue[1..];
        }
    }
  }

  lemma {:induction false} RunKeepsInv(actions: seq<Action>)
    ensures Inv(Run(actions))
    decreases |actions|
  {
    if actions == [] {
    } else {
      RunKeepsInv(actions[..|actions| - 1]);
      StepKeepsInv(Run(actions[..|actions| - 1]), actions[|actions| - 1]);
    }
  }

  lemma {:induction false} SeenTracked(whats: seq<DeviceOp>)
    ensures Tracked(Seen(whats)) == Seen(Tracked(whats))
  {
    if whats == [] {
    } else {
      assert Seen(whats)[1..] == Seen(whats[1..]);
      SeenTracked(whats[1..]);
      SeenConcat(if whats[0].op == REJECT then [] else [whats[0]], Tracked(whats[1..]));
    }
  }

  /** What the messages of a run ask for, in order. */
  function AskedIn(actions: seq<Action>): seq<DeviceOp>
    decreases |actions|
  {
    if actions == [] then []
    else
      var last := actions[|actions| - 1];
      AskedIn(actions[..|actions| - 1]) + if last.ClientSays? then Asked(last.m) else []
  }

  lemma {:induction false} IssuedIsAsked(actions: seq<Action>)
    ensures Run(actions).issued == AskedIn(actions)
    decreases |actions|
  {
    if actions == [] {
    } else {
      IssuedIsAsked(actions[..|actions| - 1]);
      if actions[|actions| - 1].ClientSays? {
        MessageMeans(actions[|actions| - 1].m);
      }
    }
  }

  /** The pipeline refines one FIFO: pair, unpair, connect, disconnect and accept operations executed,
      then those queued in hardwaremgr, on the channel and in core's queue, are what the clients'
      messages ask for, in order, each with its address cut at the first NUL. */
  lemma PipelineIsFifo(actions: seq<Action>)
    ensures var s := Run(actions);
            var near := Tracked(Seen(InCore(s.coreQueue)));
            Tracked(s.executed) + Tracked(s.hwQueue) + Tracked(InChannel(s.channel)) + near ==
              Seen(Tracked(AskedIn(actions)))
  {
    var s := Run(actions);
    RunKeepsInv(actions);
    IssuedIsAsked(actions);
    SeenTracked(s.entered);
    TrackedConcat(s.executed + s.hwQueue + InChannel(s.channel), Seen(InCore(s.coreQueue)));
    TrackedConcat(s.executed + s.hwQueue, InChannel(s.channel));
    TrackedConcat(s.executed, s.hwQueue);
  }

  /** With NUL-free addresses nothing is cut: what was executed is a prefix of what was issued. */
  lemma ExecutedIsPrefix(actions: seq<Action>)
    requires forall i | 0 <= i < |AskedIn(actions)| :: NulFree(AskedIn(actions)[i].address)
    ensures Tracked(Run(actions).executed) <= Tracked(AskedIn(actions))
  {
    var s := Run(actions);
    PipelineIsFifo(actions);
    assert Seen(AskedIn(actions)) == AskedIn(actions);
    SeenTracked(AskedIn(actions));
  }
}
