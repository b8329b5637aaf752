/** What the record manager tells core is true: a success names a session that ended so, and a refusal is
 * never a success. */
module RecordTruth {
  import opened RecordHandlers
  import opened RecordWorkers
  import opened RecordProtocol
  import C = RecordCancel

  /** A STOP or CANCEL success is the final notification of its session, and a START success names a
      session that has been opened. */
  predicate True(n: Noti, ended: map<nat, Noti>, session: nat)
  {
    && (n.ok && (n.kind == STOP_NOTI || n.kind == CANCEL_NOTI) ==> n.session in ended && ended[n.session] == n)
    && (n.ok && n.kind == START_NOTI ==> 1 <= n.session <= session)
  }

  ghost predicate AllTrue(ns: seq<Noti>, ended: map<nat, Noti>, session: nat) {
    forall i | 0 <= i < |ns| :: True(ns[i], ended, session)
  }

  ghost predicate Inv(s: System) {
    AllTrue(InFlight(s), s.history.ended, s.worker.session)
  }

  /** Sessions are closed once and opened in order. */
  predicate Later(s: System, t: System) {
    && s.worker.session <= t.worker.session
    && forall k | k in s.history.ended :: k in t.history.ended && t.history.ended[k] == s.history.ended[k]
  }

  lemma StepIsLater(s: System, a: Action)
    requires Open(s.worker) ==> s.worker.session !in s.history.ended
    ensures Later(s, Apply(s, a))
  {
    if a.WorkerStep? {
      assert Apply(s, a).history == WorkerHistory(s, ThreadStep(s.worker, a.o).1);
    } else {
      C.OthersFrame(s, a);
    }
  }

  lemma SendsAreTrue(s: System, a: Action)
    requires WellFormed(s.worker)
    ensures AllTrue(Sends(s, a), Apply(s, a).history.ended, Apply(s, a).worker.session)
  {
    match a {
      case WorkerStep(o) =>
        assert Apply(s, a).history == WorkerHistory(s, ThreadStep(s.worker, o).1);
      case _ =>
    }
  }

  lemma StepKeepsInv(s: System, a: Action)
    requires Inv(s) && WellFormed(s.worker) && (Open(s.worker) ==> s.worker.session !in s.history.ended)
    ensures Inv(Apply(s, a))
  {
    var t := Apply(s, a);
    InFlightMoves(s, a);
    StepIsLater(s, a);
    SendsAreTrue(s, a);
    if CoreHears(s, a) {
      assert forall i | 0 <= i < |InFlight(t)| :: InFlight(t)[i] == InFlight(s)[i + 1];
    } else {
      forall i | 0 <= i < |InFlight(t)|
        ensures True(InFlight(t)[i], t.history.ended, t.worker.session)
      {
        if i < |InFlight(s)| {
          assert InFlight(t)[i] == InFlight(s)[i];
        } else {
          assert InFlight(t)[i] == Sends(s, a)[i - |InFlight(s)|];
        }
      }
    }
  }

  lemma {:induction false} RunKeepsInv(actions: seq<Action>)
    ensures Inv(Run(actions))
    decreases |actions|
  {
    if actions == [] {
    } else {
      RunKeepsInv(actions[..|actions| - 1]);
      C.RunKeepsInv(actions[..|actions| - 1], 1);
      StepKeepsInv(Run(actions[..|actions| - 1]), actions[|actions| - 1]);
    }
  }

  /** In every run: a STOP or CANCEL success on its way to core is the final notification of the session
      it names, and a START success names a session that was opened. */
  lemma SuccessesAreTrue(actions: seq<Action>, n: Noti)
    requires n in InFlight(Run(actions)) && n.ok
    ensures n.kind == STOP_NOTI || n.kind == CANCEL_NOTI ==>
      n.session in Run(actions).history.ended && Run(actions).history.ended[n.session] == n
    ensures n.kind == START_NOTI ==> 1 <= n.session <= Run(actions).worker.session
  {
    RunKeepsInv(actions);
    assert True(n, Run(actions).history.ended, Run(actions).worker.session);
  }

  /** The command that the record manager's MainWorker is about to refuse. */
  function Answer(cmd: Command): NotiKind
  {
    match cmd
    case START => START_NOTI
    case STOP => STOP_NOTI
    case CANCEL => CANCEL_NOTI
  }

  /** A refused command is answered by one failure of its own kind, which core will rest in. */
  lemma RefusalIsAFailure(s: System, cmd: Command)
    requires s.worker.main == Rejecting(cmd)
    ensures InFlight(Apply(s, CommandStep)) == InFlight(s) + [Noti(Answer(cmd), false, s.worker.session)]
    ensures Replay(Apply(s, CommandStep).core, InFlight(Apply(s, CommandStep))) == STOPPED
  {
    InFlightMoves(s, CommandStep);
    var ns := InFlight(s) + [Noti(Answer(cmd), false, s.worker.session)];
    ReplaySettles(s.core, ns);
    VerdictsConcat(InFlight(s), [Noti(Answer(cmd), false, s.worker.session)]);
    assert Verdicts([Noti(Answer(cmd), false, s.worker.session)]) == [Noti(Answer(cmd), false, s.worker.session)];
  }
}
