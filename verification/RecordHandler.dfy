/** Core manager's recording state machine (coremgr/src/Controller/RecordHandler.cpp). */
module RecordHandlers {

  /** StateView::RECORD_STATE. */
  datatype RecordState = STOPPED | RECORDING | PROCESSING

  datatype Command = START | STOP | CANCEL

  datatype NotiKind = START_NOTI | STOP_NOTI | CANCEL_NOTI | FILTER_NOTI

  /** A notification of the record manager; `session` numbers the session it is about. */
  datatype Noti = Noti(kind: NotiKind, ok: bool, session: nat)

  /** A message given to updateStateAndBroadcast: the notification it repeats to every client. */
  datatype Broadcast = Broadcast(kind: NotiKind, success: bool)

  /** What one client command does to the state, and the D-Bus commands it sends. */
  function OnCommand(c: RecordState, cmd: Command): (RecordState, seq<Command>)
  {
    match cmd
    case START => if c == STOPPED then (PROCESSING, [START]) else (c, [])
    case STOP => if c == RECORDING then (PROCESSING, [STOP]) else (c, [])
    case CANCEL => if c == RECORDING then (PROCESSING, [CANCEL]) else (c, [])
  }

  /** What one notification does to the state. */
  function OnNoti(c: RecordState, n: Noti): RecordState
  {
    match n.kind
    case START_NOTI => if n.ok then RECORDING else STOPPED
    case STOP_NOTI => STOPPED
    case CANCEL_NOTI => STOPPED
    case FILTER_NOTI => c
  }

  /** A verdict is a notification that decides the state by itself. */
  predicate IsVerdict(n: Noti) {
    n.kind != FILTER_NOTI
  }

  /** Replays notifications onto a state, oldest first. */
  function Replay(c: RecordState, ns: seq<Noti>): RecordState
    decreases |ns|
  {
    if ns == [] then c else Replay(OnNoti(c, ns[0]), ns[1..])
  }

  function Verdicts(ns: seq<Noti>): seq<Noti>
  {
    if ns == [] then [] else (if IsVerdict(ns[0]) then [ns[0]] else []) + Verdicts(ns[1..])
  }

  /** The state that a client or core ends in after `vs`: the last verdict decides. */
  function Settled(c: RecordState, vs: seq<Noti>): RecordState
  {
    if vs == [] then c else OnNoti(c, vs[|vs| - 1])
  }

  lemma {:induction false} VerdictsConcat(a: seq<Noti>, b: seq<Noti>)
    ensures Verdicts(a + b) == Verdicts(a) + Verdicts(b)
  {
    if a == [] {
      assert a + b == b;
    } else {
      assert (a + b)[1..] == a[1..] + b;
      VerdictsConcat(a[1..], b);
      var first := if IsVerdict(a[0]) then [a[0]] else [];
      assert first + Verdicts(a[1..]) + Verdicts(b) == first + (Verdicts(a[1..]) + Verdicts(b));
    }
  }

  lemma {:induction false} AllVerdicts(ns: seq<Noti>)
    ensures forall i | 0 <= i < |Verdicts(ns)| :: IsVerdict(Verdicts(ns)[i])
  {
    if ns == [] {
    } else {
      AllVerdicts(ns[1..]);
    }
  }

  /** Replaying a stream of notifications only depends on its last verdict. */
  lemma {:induction false} ReplaySettles(c: RecordState, ns: seq<Noti>)
    ensures Replay(c, ns) == Settled(c, Verdicts(ns))
    decreases |ns|
  {
    if ns == [] {
    } else {
      ReplaySettles(OnNoti(c, ns[0]), ns[1..]);
      AllVerdicts(ns[1..]);
    }
  }

  /** The handler object: it shares RECORD_STATE with the clients' snapshot and owns both outputs. */
  class RecordHandler {
    var recordState: RecordState
    var sent: seq<Command>
    var broadcasts: seq<Broadcast>

    constructor ()
      ensures recordState == STOPPED && sent == [] && broadcasts == []
    {
      recordState := STOPPED;
      sent := [];
      broadcasts := [];
    }

    method StartRecord()
      modifies this`recordState, this`sent
      ensures recordState == OnCommand(old(recordState), START).0
      ensures sent == old(sent) + OnCommand(old(recordState), START).1
    {
      match recordState {
        case STOPPED =>
          recordState := PROCESSING;
          sent := sent + [START];
        case RECORDING =>
        case PROCESSING =>
      }
    }

    method StopRecord()
      modifies this`recordState, this`sent
      ensures recordState == OnCommand(old(recordState), STOP).0
      ensures sent == old(sent) + OnCommand(old(recordState), STOP).1
    {
      match recordState {
        case RECORDING =>
          recordState := PROCESSING;
          sent := sent + [STOP];
        case STOPPED =>
        case PROCESSING =>
      }
    }

    method CancelRecord()
      modifies this`recordState, this`sent
      ensures recordState == OnCommand(old(recordState), CANCEL).0
      ensures sent == old(sent) + OnCommand(old(recordState), CANCEL).1
    {
      match recordState {
        case RECORDING =>
          recordState := PROCESSING;
          sent := sent + [CANCEL];
        case STOPPED =>
        case PROCESSING =>
      }
    }

    /** The four NOTI handlers: the state is written first, then every client is told. */
    method NotiArrives(n: Noti)
      modifies this`recordState, this`broadcasts
      ensures recordState == OnNoti(old(recordState), n)
      ensures broadcasts == old(broadcasts) + [Broadcast(n.kind, n.ok)]
    {
      match n.kind {
        case START_NOTI =>
          if !n.ok {
            recordState := STOPPED;
          } else {
            recordState := RECORDING;
          }
        case STOP_NOTI =>
          recordState := STOPPED;
        case CANCEL_NOTI =>
          recordState := STOPPED;
        case FILTER_NOTI =>
      }
      broadcasts := broadcasts + [Broadcast(n.kind, n.ok)];
    }
  }
}
