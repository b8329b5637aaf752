/** Progress of the recording protocol: a waiting core gets its answer from the managers' own steps,
 * unless the START it waits for is lost. */
module RecordProgress {
  import opened RecordHandlers
  import opened RecordWorkers
  import opened RecordProtocol
  import opened RecordSafety

  /** Core waits, nothing is left that could answer it, and the START it waits for has been overwritten or
      is about to be: only the reset is left. */
  predicate Doomed(s: System) {
    && s.core == PROCESSING && Commands(s) == [] && Pending(s) == [] && s.worker.main == Ready
    && ((s.worker.phase == Waiting && s.worker.state == IDLE) || InGap(s.worker))
  }

  /** So it is stuck, or all that is left to happen is the overwriting reset. */
  lemma DoomedIsStuckOrOverwriting(actions: seq<Action>)
    ensures var s := Run(actions);
            Doomed(s) <==>
              || Stuck(s)
              || (s.core == PROCESSING && Commands(s) == [] && Pending(s) == [] && s.worker.main == Ready
                  && InGap(s.worker) && s.worker.state == State.RECORDING && s.history.armedInGap)
  {
    RunKeepsInv(actions);
    var s := Run(actions);
    if Doomed(s) && InGap(s.worker) {
      assert Eventually(s) == PROCESSING && !Open(s.worker);
    }
  }

  // ---------------------------------------------------------------- a doomed core waits for ever

  lemma DoomedByWorker(s: System, o: Oracle)
    requires Doomed(s)
    ensures Doomed(Apply(s, WorkerStep(o)))
  {
    var t := Apply(s, WorkerStep(o));
    assert Sends(s, WorkerStep(o)) == [];
    PendingMoves(s, WorkerStep(o));
    assert Verdicts([]) == [];
    CommandsMove(s, WorkerStep(o));
    assert t.worker == ThreadStep(s.worker, o).0;
  }

  lemma DoomedAtCore(s: System)
    requires Doomed(s)
    ensures Doomed(Apply(s, CoreStep))
  {
    var t := Apply(s, CoreStep);
    PendingMoves(s, CoreStep);
    CommandsMove(s, CoreStep);
    assert t.worker == s.worker && Orders(s, CoreStep) == [];
    if CoreHears(s, CoreStep) {
      assert !IsVerdict(s.coreQueue[0].noti);
    }
    assert t.core == s.core;
  }

  lemma DoomedElsewhere(s: System, a: Action)
    requires Doomed(s)
    requires a.ClientSends? || a == Receive || a == Deliver || a == CommandArrives || a.FilterDone? || a == Take
    ensures Doomed(Apply(s, a))
  {
    PendingMoves(s, a);
    CommandsMove(s, a);
    assert Verdicts(Sends(s, a)) == [];
    assert !TakesCommand(s, a) && Apply(s, a).core == s.core && Apply(s, a).worker == s.worker;
  }

  lemma DoomedStays(s: System, a: Action)
    requires Doomed(s)
    ensures Doomed(Apply(s, a))
  {
    match a {
      case CoreStep => DoomedAtCore(s);
      case WorkerStep(o) => DoomedByWorker(s, o);
      case CommandStep => assert Apply(s, CommandStep) == s;
      case _ => DoomedElsewhere(s, a);
    }
  }

  lemma {:induction false} DoomedForever(s: System, actions: seq<Action>)
    requires Doomed(s)
    ensures Doomed(Continue(s, actions))
    decreases |actions|
  {
    if actions == [] {
    } else {
      DoomedForever(s, actions[..|actions| - 1]);
      DoomedStays(Continue(s, actions[..|actions| - 1]), actions[|actions| - 1]);
    }
  }

  // ---------------------------------------------------------------- any other waiting core gets an answer

  /** Failing captures: whatever the thread is in comes to its end. */
  const FAILS := Oracle(false, Fails, NoAudio)

  /** How far the thread is from sending a verdict. */
  function Distance(phase: Phase): nat
  {
    match phase
    case Queueing => 9
    case Resetting => 8
    case Waiting => 7
    case Opening => 6
    case Testing => 5
    case Capturing => 4
    case Ending(_) => 3
    case Saving => 2
    case Reporting(_) => 1
    case Opened => 1
  }

  /** What is between core and the first verdict in flight. */
  function Ahead(s: System): nat {
    |s.coreQueue| + 2 * |s.receiving| + 4 * |s.notiChannel|
  }

  function Work(s: System): nat {
    12 * |s.cmdChannel| + 6 * |s.recQueue| + Remaining(s.worker.main)
  }

  function Mode(s: System): nat {
    if Pending(s) != [] then 0 else 1
  }

  function Major(s: System): nat {
    if Pending(s) != [] then Ahead(s) else Distance(s.worker.phase)
  }

  function Minor(s: System): nat {
    if Pending(s) != [] then 0 else Work(s)
  }

  /** The step of the managers that brings a waiting core nearer to an answer: deliver a verdict that is
      in flight; else let the thread move, but not the MainWorker while the thread is in the gap. */
  function Next(s: System): Action
  {
    if Pending(s) != [] then
      if s.coreQueue != [] then CoreStep else if s.receiving != [] then Deliver else Receive
    else if s.worker.main != Ready && !InGap(s.worker) then CommandStep
    else if s.worker.phase != Waiting || s.worker.state == State.RECORDING then WorkerStep(FAILS)
    else if s.recQueue != [] then Take
    else CommandArrives
  }

  predicate Nearer(t: System, s: System) {
    Mode(t) < Mode(s) || (Mode(t) == Mode(s) && (Major(t) < Major(s) || (Major(t) == Major(s) && Minor(t) < Minor(s))))
  }

  lemma DeliveryBringsNearer(s: System)
    requires s.core == PROCESSING && Pending(s) != []
    ensures var t := Apply(s, Next(s));
            t.core != PROCESSING || (Pending(t) != [] && Nearer(t, s))
  {
    var t := Apply(s, Next(s));
    PendingMoves(s, Next(s));
    assert Sends(s, Next(s)) == [] && Verdicts([]) == [];
    if s.coreQueue != [] {
      assert |t.coreQueue| == |s.coreQueue| - 1 && t.receiving == s.receiving && t.notiChannel == s.notiChannel;
    } else {
      NothingInFlight(s);
    }
  }

  lemma NothingInFlight(s: System)
    ensures s.coreQueue == [] && s.receiving == [] && s.notiChannel == [] ==> Pending(s) == []
  {
  }

  lemma RefusalBringsNearer(s: System)
    requires s.core == PROCESSING && Pending(s) == [] && s.worker.main.Rejecting?
    ensures var t := Apply(s, CommandStep);
            t.core == PROCESSING && Pending(t) != []
  {
    PendingMoves(s, CommandStep);
    assert Verdicts(Sends(s, CommandStep)) == Sends(s, CommandStep);
  }

  /** If core waits for the START in hand, the thread will find it: it is not stored in the gap. */
  lemma StartIsStored(w: Worker, armedInGap: bool, lostStart: bool)
    requires Sound(w, [], armedInGap, lostStart, PROCESSING) && !Open(w) && w.main != Ready && !w.main.Rejecting?
    ensures MainStep(w).0.main == Ready ==> MainStep(w).0.state == State.RECORDING
  {
  }

  lemma CommandBringsNearer(s: System)
    requires Inv(s) && s.core == PROCESSING && Pending(s) == [] && s.worker.main != Ready && !InGap(s.worker)
    requires !s.worker.main.Rejecting?
    ensures var t := Apply(s, CommandStep);
            && t.core == PROCESSING && Pending(t) == [] && !Doomed(t)
            && Distance(t.worker.phase) == Distance(s.worker.phase) && Work(t) < Work(s)
  {
    var t := Apply(s, CommandStep);
    PendingMoves(s, CommandStep);
    assert Verdicts(Sends(s, CommandStep)) == [];
    CommandsMove(s, CommandStep);
    assert t.core == s.core && t.recQueue == s.recQueue && t.cmdChannel == s.cmdChannel;
    assert t.worker == MainStep(s.worker).0 && t.worker.phase == s.worker.phase;
    assert Remaining(t.worker.main) < Remaining(s.worker.main);
    if Commands(s) == [] && !Open(s.worker) {
      assert Eventually(s) == PROCESSING;
      StartIsStored(s.worker, s.history.armedInGap, s.history.lostStart);
    }
  }

  lemma VerdictBringsNearer(s: System)
    requires Inv(s) && s.core == PROCESSING && Pending(s) == []
    requires s.worker.phase == Opened || s.worker.phase.Reporting?
    ensures var t := Apply(s, WorkerStep(FAILS));
            t.core == PROCESSING && Pending(t) != []
  {
    var ns := Sends(s, WorkerStep(FAILS));
    PendingMoves(s, WorkerStep(FAILS));
    assert |ns| == 1 && IsVerdict(ns[0]);
    assert Verdicts(ns) == ns;
  }

  lemma SilentThread(w: Worker)
    requires w.phase != Opened && !w.phase.Reporting? && (w.phase != Waiting || w.state == State.RECORDING)
    ensures var (v, out) := ThreadStep(w, FAILS);
            && out.notis == [] && v.main == w.main && Distance(v.phase) < Distance(w.phase)
            && (v.phase == Waiting || InGap(v) ==> InGap(w))
  {
  }

  lemma WorkerBringsNearer(s: System)
    requires Inv(s) && s.core == PROCESSING && !Doomed(s) && Pending(s) == []
    requires s.worker.phase != Opened && !s.worker.phase.Reporting?
    requires s.worker.phase != Waiting || s.worker.state == State.RECORDING
    ensures var t := Apply(s, WorkerStep(FAILS));
            && t.core == PROCESSING && Pending(t) == [] && !Doomed(t)
            && Distance(t.worker.phase) < Distance(s.worker.phase)
  {
    var t := Apply(s, WorkerStep(FAILS));
    WorkerStepFrame(s, FAILS);
    SilentThread(s.worker);
    PendingMoves(s, WorkerStep(FAILS));
    assert Sends(s, WorkerStep(FAILS)) == [] && Verdicts([]) == [];
    assert t.core == s.core;
  }

  lemma FetchingBringsNearer(s: System)
    requires Inv(s) && s.core == PROCESSING && !Doomed(s) && Pending(s) == []
    requires s.worker.main == Ready && s.worker.phase == Waiting && s.worker.state == IDLE
    ensures var t := Apply(s, Next(s));
            t.core == PROCESSING && !Doomed(t) && Nearer(t, s)
  {
    var t := Apply(s, Next(s));
    assert Commands(s) != [];
    PendingMoves(s, Next(s));
    CommandsMove(s, Next(s));
    assert Sends(s, Next(s)) == [] && Verdicts([]) == [];
    if s.recQueue == [] {
      assert Queued(s.recQueue) == [];
    }
  }

  lemma NextBringsNearer(s: System)
    requires Inv(s) && s.core == PROCESSING && !Doomed(s)
    ensures var t := Apply(s, Next(s));
            !Next(s).ClientSends? && (t.core != PROCESSING || (!Doomed(t) && Nearer(t, s)))
  {
    if Pending(s) != [] {
      DeliveryBringsNearer(s);
    } else if s.worker.main != Ready && !InGap(s.worker) {
      if s.worker.main.Rejecting? {
        RefusalBringsNearer(s);
      } else {
        CommandBringsNearer(s);
      }
    } else if s.worker.phase != Waiting || s.worker.state == State.RECORDING {
      if s.worker.phase == Opened || s.worker.phase.Reporting? {
        VerdictBringsNearer(s);
      } else {
        WorkerBringsNearer(s);
      }
    } else {
      FetchingBringsNearer(s);
    }
  }

  predicate Own(actions: seq<Action>) {
    forall i | 0 <= i < |actions| :: !actions[i].ClientSends?
  }

  lemma ContinueFirst(s: System, a: Action, actions: seq<Action>)
    ensures Continue(s, [a] + actions) == Continue(Apply(s, a), actions)
    decreases |actions|
  {
    if actions == [] {
      assert [a] + actions == [a] && [a][..0] == [];
    } else {
      assert ([a] + actions)[..|actions|] == [a] + actions[..|actions| - 1];
      ContinueFirst(s, a, actions[..|actions| - 1]);
    }
  }

  lemma {:induction false} Answered(s: System) returns (actions: seq<Action>)
    requires Inv(s) && s.core == PROCESSING && !Doomed(s)
    ensures Own(actions) && Continue(s, actions).core != PROCESSING
    decreases Mode(s), Major(s), Minor(s)
  {
    var t := Apply(s, Next(s));
    NextBringsNearer(s);
    StepKeepsInv(s, Next(s));
    if t.core != PROCESSING {
      actions := [];
    } else {
      actions := Answered(t);
    }
    ContinueFirst(s, Next(s), actions);
    actions := [Next(s)] + actions;
  }

  /** In every run in which core waits: the managers' own steps, with no help of a client, can bring it
      out of PROCESSING if and only if it is not doomed. */
  lemma AnsweredIffNotDoomed(actions: seq<Action>)
    requires Run(actions).core == PROCESSING
    ensures (exists more :: Own(more) && Continue(Run(actions), more).core != PROCESSING) <==> !Doomed(Run(actions))
  {
    RunKeepsInv(actions);
    if Doomed(Run(actions)) {
      forall more
        ensures Continue(Run(actions), more).core == PROCESSING
      {
        DoomedForever(Run(actions), more);
      }
    } else {
      var more := Answered(Run(actions));
      assert Own(more);
    }
  }
}
