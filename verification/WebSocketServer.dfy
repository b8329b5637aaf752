/** The WebSocket server (WebSocketServer in coremgr/src/WS/WebSocketServer.cpp) with its sessions,
 * core's StateView and core's MainWorker, whose handlers write the state first and broadcast after.
 *
 * join, leave and updateStateAndBroadcast hold mutex_. The snapshot in join reads the flags of
 * StateView one by one, while the MainWorker may be writing them. An action whose thread has to
 * wait changes nothing. */
module WebSocketServers {
  import opened Wrappers
  import opened WebSocketSessions
  import R = RecordHandlers
  import H = HardwareSwitches

  /** What the server sends, as the values its JSON text carries. */
  datatype Message =
    | Temperature(success: bool, celsius: int)
    | InitialRecord(isRecording: bool)
    | InitialSettings(powerOn: bool, scanning: bool)
    | RecordNoti(what: R.Broadcast)
    | SwitchNoti(turned: H.Broadcast)
    | Other(msg: string)

  /** StateView, without the call state. */
  datatype View = View(record: R.RecordState, temperature: int, scan: H.SwitchState, power: H.SwitchState)

  predicate IsRecording(v: View) {
    v.record == R.RecordState.RECORDING
  }

  /** An event that core's MainWorker handles, as far as the view or the clients are concerned. */
  datatype Event =
    | RecordCommand(cmd: R.Command)
    | RecordAnswer(noti: R.Noti)
    | SwitchCommand(turn: H.Command)
    | SwitchAnswer(turned: H.Broadcast)
    | TemperatureRead(celsius: int)
    | TemperatureFailed
    | Tell(msg: string)

  function Get(v: View, what: H.Switch): H.SwitchState {
    if what == H.SCAN then v.scan else v.power
  }

  function Set(v: View, what: H.Switch, state: H.SwitchState): View {
    if what == H.SCAN then v.(scan := state) else v.(power := state)
  }

  /** The handlers: what they write to the view, and what they broadcast after it. */
  function Handles(v: View, e: Event): (View, Option<Message>)
  {
    match e
    case RecordCommand(cmd) => (v.(record := R.OnCommand(v.record, cmd).0), None)
    case RecordAnswer(n) => (v.(record := R.OnNoti(v.record, n)), Some(RecordNoti(R.Broadcast(n.kind, n.ok))))
    case SwitchCommand(turn) => (Set(v, turn.what, H.OnCommand(Get(v, turn.what), turn.on).0), None)
    case SwitchAnswer(t) => (Set(v, t.what, H.OnNoti(t.on, t.success)), Some(SwitchNoti(t)))
    case TemperatureRead(c) =>
      if c == v.temperature then (v, None) else (v.(temperature := c), Some(Temperature(true, c)))
    case TemperatureFailed => (v, Some(Temperature(false, 0)))
    case Tell(msg) => (v, Some(Other(msg)))
  }

  // ---------------------------------------------------------------- the system

  /** A connection that has joined. */
  datatype Client = Client(
    session: Session<Message>,
    snapshot: seq<Message>,      // history: what join sent it
    joinedAt: nat,               // history: broadcasts before its join
    leftAt: Option<nat>)         // history: broadcasts before it left

  /** The thread inside join, with the flags it has read and not sent yet. */
  datatype Join =
    | SendTemperature
    | ReadRecord
    | SendRecord(isRecording: bool)
    | ReadPower
    | ReadScan(powerOn: bool)
    | SendSettings(powerOn: bool, scanning: bool)

  datatype System = System(
    view: View,
    clients: seq<Client>,        // everyone who joined, oldest first
    sessions: set<nat>,          // sessions_
    joining: Option<Join>,       // the newest client is joining, and mutex_ is taken
    announcing: Option<Message>, // the MainWorker is between its state write and its broadcast
    log: seq<Message>)           // history: the broadcasts

  datatype Action =
    | Handle(e: Event)
    | Announce
    | Connect
    | JoinStep
    | Disconnect(k: nat)
    | DoWrite(k: nat)
    | Complete(k: nat, ok: bool)

  function Init(): System {
    System(View(R.STOPPED, 0, H.OFF, H.OFF), [], {}, None, None, [])
  }

  function Sent(c: Client, m: Message): Client {
    c.(session := OnSend(c.session, m))
  }

  /** join's own messages. */
  function Greeted(c: Client, m: Message): Client {
    Sent(c, m).(snapshot := c.snapshot + [m])
  }

  function Broadcasted(clients: seq<Client>, sessions: set<nat>, m: Message): seq<Client> {
    seq(|clients|, k requires 0 <= k < |clients| => if k in sessions then Sent(clients[k], m) else clients[k])
  }

  function Greets(s: System, m: Message, next: Option<Join>): System
    requires s.clients != []
  {
    var k := |s.clients| - 1;
    s.(clients := s.clients[k := Greeted(s.clients[k], m)], joining := next)
  }

  function Joins(s: System, j: Join): System
  {
    if s.clients == [] then s
    else
      match j
      case SendTemperature => Greets(s, Temperature(true, s.view.temperature), Some(ReadRecord))
      case ReadRecord => s.(joining := Some(SendRecord(IsRecording(s.view))))
      case SendRecord(b) => Greets(s, InitialRecord(b), Some(ReadPower))
      case ReadPower => s.(joining := Some(ReadScan(s.view.power == H.ON)))
      case ReadScan(power) => s.(joining := Some(SendSettings(power, s.view.scan == H.ON)))
      case SendSettings(power, scan) => Greets(s, InitialSettings(power, scan), None)
  }

  function Leaves(s: System, k: nat): System
  {
    if k !in s.sessions || k >= |s.clients| then s
    else s.(sessions := s.sessions - {k}, clients := s.clients[k := s.clients[k].(leftAt := Some(|s.log|))])
  }

  function Writes(s: System, k: nat, t: Session<Message>): System
    requires k < |s.clients|
  {
    s.(clients := s.clients[k := s.clients[k].(session := t)])
  }

  function Apply(s: System, a: Action): System
  {
    match a
    case Handle(e) =>
      if s.announcing.Some? then s
      else var (v, m) := Handles(s.view, e); s.(view := v, announcing := m)
    case Announce =>
      if s.announcing.None? || s.joining.Some? then s
      else s.(clients := Broadcasted(s.clients, s.sessions, s.announcing.value), announcing := None,
              log := s.log + [s.announcing.value])
    case Connect =>
      if s.joining.Some? then s
      else s.(clients := s.clients + [Client(Opened(), [], |s.log|, None)], sessions := s.sessions + {|s.clients|},
              joining := Some(SendTemperature))
    case JoinStep => if s.joining.None? then s else Joins(s, s.joining.value)
    case Disconnect(k) => if s.joining.Some? then s else Leaves(s, k)
    case DoWrite(k) => if k >= |s.clients| then s else Writes(s, k, OnDoWrite(s.clients[k].session))
    case Complete(k, ok) =>
      if k >= |s.clients| || s.clients[k].session.running == [] || (!ok && s.joining.Some?) then s
      else
        var t := Writes(s, k, OnComplete(s.clients[k].session, ok));
        if ok then t else Leaves(t, k)
  }

  function Run(actions: seq<Action>): System
    decreases |actions|
  {
    if actions == [] then Init() else Apply(Run(actions[..|actions| - 1]), actions[|actions| - 1])
  }

  // ---------------------------------------------------------------- the server object

  /** What join sends when nothing is written meanwhile. */
  function Snapshot(v: View): seq<Message> {
    [Temperature(true, v.temperature), InitialRecord(IsRecording(v)), InitialSettings(v.power == H.ON, v.scan == H.ON)]
  }

  function OnSendAll(s: Session<Message>, ms: seq<Message>): Session<Message>
    decreases |ms|
  {
    if ms == [] then s else OnSendAll(OnSend(s, ms[0]), ms[1..])
  }

  lemma ThreeSends(s: Session<Message>, ms: seq<Message>)
    requires |ms| == 3
    ensures OnSendAll(s, ms) == OnSend(OnSend(OnSend(s, ms[0]), ms[1]), ms[2])
  {
    assert ms[1..][1..][1..] == [];
    assert OnSendAll(OnSend(OnSend(s, ms[0]), ms[1]), ms[1..][1..]) ==
      OnSendAll(OnSend(OnSend(OnSend(s, ms[0]), ms[1]), ms[2]), []);
  }

  /** The D-Bus command that join sends. */
  datatype BluetoothCommand = INITIALIZE_BLUETOOTH

  class WebSocketServer {
    var sessions: set<WebSocketSession<Message>>
    var sent: seq<BluetoothCommand>

    ghost predicate Valid()
      reads this, sessions
    {
      forall c | c in sessions :: c.Valid()
    }

    constructor ()
      ensures Valid() && sessions == {} && sent == []
    {
      sessions := {};
      sent := [];
    }

    method SendInitStateToClient(session: WebSocketSession<Message>, view: View)
      requires session.Valid()
      modifies session
      ensures session.Valid() && session.View() == OnSendAll(old(session.View()), Snapshot(view))
    {
      session.Send(Temperature(true, view.temperature));
      session.Send(InitialRecord(IsRecording(view)));
      session.Send(InitialSettings(view.power == H.ON, view.scan == H.ON));
      ThreeSends(old(session.View()), Snapshot(view));
    }

    method Join(session: WebSocketSession<Message>, view: View)
      requires Valid() && session.Valid()
      modifies this, session
      ensures Valid() && sessions == old(sessions) + {session} && sent == old(sent) + [INITIALIZE_BLUETOOTH]
      ensures session.View() == OnSendAll(old(session.View()), Snapshot(view))
    {
      sessions := sessions + {session};
      SendInitStateToClient(session, view);
      sent := sent + [INITIALIZE_BLUETOOTH];
    }

    method Leave(session: WebSocketSession<Message>)
      requires Valid()
      modifies this`sessions
      ensures Valid() && sessions == old(sessions) - {session}
    {
      sessions := sessions - {session};
    }

    method Broadcast(message: Message)
      requires Valid()
      modifies sessions
      ensures Valid()
      ensures forall c | c in sessions :: c.View() == OnSend(old(c.View()), message)
    {
      var rest := sessions;
      while rest != {}
        invariant rest <= sessions && Valid()
        invariant forall c | c in sessions - rest :: c.View() == OnSend(old(c.View()), message)
        invariant forall c | c in rest :: c.View() == old(c.View())
        decreases |rest|
      {
        var c :| c in rest;
        c.Send(message);
        rest := rest - {c};
      }
    }
  }
}
