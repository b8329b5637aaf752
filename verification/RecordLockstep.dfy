/** When no session ends by itself and no START is handled in a finishing window, core and the worker
 * move in lockstep. */
module RecordLockstep {
  import opened RecordHandlers
  import opened RecordWorkers
  import opened RecordProtocol

  /** The two events the hypothesis excludes. */
  predicate Orderly(s: System, a: Action) {
    match a
    case WorkerStep(o) => s.worker.phase == Capturing && s.worker.state == State.RECORDING ==> o.capture == Continues
    case CommandStep => s.worker.main == Handling(START) ==> !Finishing(s.worker)
    case _ => true
  }

  ghost predicate OrderlyRun(actions: seq<Action>)
    decreases |actions|
  {
    actions == [] ||
    var before := actions[..|actions| - 1];
    OrderlyRun(before) && Orderly(Run(before), actions[|actions| - 1])
  }

  predicate Resting(w: Worker) {
    (w.phase == Waiting && w.state == IDLE) || InGap(w)
  }

  predicate Live(w: Worker) {
    (w.phase == Testing || w.phase == Capturing) && w.state == State.RECORDING
  }

  /** The worker has accepted a command and not answered it yet. */
  predicate Accepted(w: Worker) {
    || (w.phase == Waiting && w.state == State.RECORDING)
    || w.phase == Opening || w.phase == Opened || (w.phase.Reporting? && !Open(w))
    || (Open(w) && w.state == IDLE)
  }

  /** Commands in flight, commands in hand, accepted commands and replies in flight. */
  function Outstanding(s: System): nat {
    |Commands(s)| + (if s.worker.main == Ready then 0 else 1) + (if Accepted(s.worker) then 1 else 0) + |Pending(s)|
  }

  ghost predicate InHand(w: Worker)
  {
    match w.main
    case Handling(START) => Resting(w)
    case Handling(_) => Live(w)
    case Clearing => w.phase == Waiting && w.state == IDLE
    case Arming => w.phase == Waiting && w.state == IDLE
    case Flagging => Live(w)
    case Disarming => Live(w)
    case Rejecting(_) => false
    case Ready => Accepted(w) && (!Open(w) ==> w.state == State.RECORDING)
  }

  /** Where the one outstanding item of a waiting core is. */
  ghost predicate OneItem(s: System)
  {
    var cmds := Commands(s);
    if cmds != [] then
      && |cmds| == 1 && Pending(s) == [] && s.worker.main == Ready
      && if cmds[0] == START then Resting(s.worker) else Live(s.worker)
    else if Pending(s) != [] then
      |Pending(s)| == 1 && s.worker.main == Ready
      && if OnNoti(s.core, Pending(s)[0]) == STOPPED then Resting(s.worker) else Live(s.worker)
    else InHand(s.worker)
  }

  ghost predicate Locked(s: System)
  {
    && WellFormed(s.worker)
    && match s.core
       case PROCESSING => OneItem(s)
       case STOPPED => Commands(s) == [] && Pending(s) == [] && s.worker.main == Ready && Resting(s.worker)
       case RECORDING => Commands(s) == [] && Pending(s) == [] && s.worker.main == Ready && Live(s.worker)
  }

  lemma HearingLocked(s: System)
    requires Locked(s) && CoreHears(s, CoreStep)
    ensures Locked(Apply(s, CoreStep))
  {
    var t := Apply(s, CoreStep);
    var n := s.coreQueue[0].noti;
    PendingMoves(s, CoreStep);
    CommandsMove(s, CoreStep);
    assert t.worker == s.worker && Commands(t) == Commands(s) && t.core == OnNoti(s.core, n);
    if !IsVerdict(n) {
      assert Pending(t) == Pending(s);
    }
  }

  lemma OrderingLocked(s: System)
    requires Locked(s) && Orders(s, CoreStep) != []
    ensures Locked(Apply(s, CoreStep))
  {
    var t := Apply(s, CoreStep);
    PendingMoves(s, CoreStep);
    CommandsMove(s, CoreStep);
    var cmd := s.coreQueue[0].cmd;
    assert t.core == PROCESSING && t.worker == s.worker && Pending(t) == Pending(s) == [];
    assert Commands(t) == Orders(s, CoreStep) == [cmd];
    assert if cmd == START then s.core == STOPPED else s.core == RecordState.RECORDING;
  }

  lemma IdleCoreLocked(s: System)
    requires Locked(s) && !CoreHears(s, CoreStep) && Orders(s, CoreStep) == []
    ensures Locked(Apply(s, CoreStep))
  {
    var t := Apply(s, CoreStep);
    PendingMoves(s, CoreStep);
    CommandsMove(s, CoreStep);
    assert Pending(t) == Pending(s) && Commands(t) == Commands(s);
    assert t.core == s.core && t.worker == s.worker;
  }

  lemma CoreStepLocked(s: System)
    requires Locked(s)
    ensures Locked(Apply(s, CoreStep))
  {
    if CoreHears(s, CoreStep) {
      HearingLocked(s);
    } else if Orders(s, CoreStep) != [] {
      OrderingLocked(s);
    } else {
      IdleCoreLocked(s);
    }
  }

  lemma TakeLocked(s: System)
    requires Locked(s)
    ensures Locked(Apply(s, Take))
  {
    var t := Apply(s, Take);
    PendingMoves(s, Take);
    CommandsMove(s, Take);
    assert Pending(t) == Pending(s) && t.core == s.core;
    if TakesCommand(s, Take) {
      var cmd := s.recQueue[0].cmd;
      assert s.core == PROCESSING && Commands(s) == [cmd] + Commands(t) && |Commands(s)| == 1;
      assert t.worker == s.worker.(main := Handling(cmd));
    } else {
      assert t.worker == s.worker && Commands(t) == Commands(s);
    }
  }

  lemma MovesLocked(s: System, a: Action)
    requires Locked(s)
    requires a.ClientSends? || a == Receive || a == Deliver || a == CommandArrives || a.FilterDone?
    ensures Locked(Apply(s, a))
  {
    var t := Apply(s, a);
    PendingMoves(s, a);
    CommandsMove(s, a);
    assert Verdicts(Sends(s, a)) == [];
    assert Pending(t) == Pending(s) && Commands(t) == Commands(s) && t.core == s.core && t.worker == s.worker;
  }

  lemma CommandEffect(s: System)
    requires !s.worker.main.Rejecting?
    ensures var t := Apply(s, CommandStep);
            && t.worker == MainStep(s.worker).0 && t.core == s.core
            && Pending(t) == Pending(s) && Commands(t) == Commands(s)
  {
    PendingMoves(s, CommandStep);
    CommandsMove(s, CommandStep);
    assert Verdicts(Sends(s, CommandStep)) == [];
  }

  /** The command in hand moves on inside the MainWorker thread and ends as an accepted one. */
  lemma HandMoves(w: Worker)
    requires InHand(w) && w.main != Ready && WellFormed(w) && (w.main == Handling(START) ==> !Finishing(w))
    ensures InHand(MainStep(w).0) && WellFormed(MainStep(w).0) && !w.main.Rejecting?
  {
    match w.main {
      case Handling(cmd) => assert w.state == (if cmd == START then IDLE else State.RECORDING);
      case _ =>
    }
  }

  lemma CommandStepLocked(s: System)
    requires Locked(s) && Orderly(s, CommandStep)
    ensures Locked(Apply(s, CommandStep))
  {
    var t := Apply(s, CommandStep);
    if s.worker.main == Ready {
      CommandEffect(s);
      assert t.worker == s.worker;
    } else {
      assert s.core == PROCESSING && Commands(s) == [] && Pending(s) == [] && InHand(s.worker);
      HandMoves(s.worker);
      CommandEffect(s);
    }
  }

  lemma WorkerMoves(w: Worker, o: Oracle)
    requires WellFormed(w)
    ensures var (v, out) := ThreadStep(w, o);
            && WellFormed(v) && v.main == w.main
            && (Resting(w) ==> Resting(v) && out.notis == [])
            && (Live(w) && (w.phase == Capturing ==> o.capture == Continues) ==> Live(v) && out.notis == [])
            && (Accepted(w) && (!Open(w) ==> w.state == State.RECORDING) ==>
                  || (out.notis == [] && Accepted(v) && (!Open(v) ==> v.state == State.RECORDING))
                  || (exists n :: out.notis == [n] && IsVerdict(n) &&
                       if n.kind == START_NOTI && n.ok then Live(v) else Resting(v)))
  {
  }

  lemma WorkerStepLocked(s: System, o: Oracle)
    requires Locked(s) && Orderly(s, WorkerStep(o))
    ensures Locked(Apply(s, WorkerStep(o)))
  {
    var t := Apply(s, WorkerStep(o));
    PendingMoves(s, WorkerStep(o));
    CommandsMove(s, WorkerStep(o));
    WorkerMoves(s.worker, o);
    assert t.worker == ThreadStep(s.worker, o).0;
    var ns := Sends(s, WorkerStep(o));
    if ns == [] {
      assert Pending(t) == Pending(s) && Commands(t) == Commands(s);
    } else {
      assert Verdicts(ns) == ns;
      assert Pending(t) == ns && Commands(t) == [];
    }
  }

  lemma {:induction false} OrderlyRunsLocked(actions: seq<Action>)
    requires OrderlyRun(actions)
    ensures Locked(Run(actions))
    decreases |actions|
  {
    if actions == [] {
    } else {
      var before := actions[..|actions| - 1];
      OrderlyRunsLocked(before);
      match actions[|actions| - 1] {
        case CoreStep => CoreStepLocked(Run(before));
        case CommandStep => CommandStepLocked(Run(before));
        case Take => TakeLocked(Run(before));
        case WorkerStep(o) => WorkerStepLocked(Run(before), o);
        case a => MovesLocked(Run(before), a);
      }
    }
  }

  lemma LockedCounts(s: System)
    requires Locked(s)
    ensures Outstanding(s) == if s.core == PROCESSING then 1 else 0
  {
    assert Resting(s.worker) ==> !Accepted(s.worker);
    assert Live(s.worker) ==> !Accepted(s.worker);
    assert InHand(s.worker) ==> (s.worker.main == Ready <==> Accepted(s.worker));
  }

  /** Lockstep: core is PROCESSING iff exactly one command, accepted request or reply is outstanding,
      RECORDING iff the worker captures with nothing outstanding, and the worker refuses nothing. */
  lemma Lockstep(actions: seq<Action>)
    requires OrderlyRun(actions)
    ensures var s := Run(actions);
            && Outstanding(s) <= 1
            && (s.core == PROCESSING <==> Outstanding(s) == 1)
            && (s.core == RecordState.RECORDING <==> Live(s.worker) && Outstanding(s) == 0)
            && !s.worker.main.Rejecting?
  {
    OrderlyRunsLocked(actions);
    LockedCounts(Run(actions));
  }
}
