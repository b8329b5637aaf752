/** Saved sessions reach the database: the managers' own steps carry every one of them there, unless its
 * filter fails. */
module RecordInserts {
  import opened Wrappers
  import opened RecordHandlers
  import opened RecordWorkers
  import opened RecordProtocol
  import opened RecordConservation
  import P = RecordProgress

  function MainLeft(main: MainPc): nat
  {
    match main
    case Ready => 0
    case Handling(_) => 9
    case Clearing => 7
    case Flagging => 7
    case Arming => 6
    case Disarming => 6
    case Rejecting(_) => 5
  }

  /** What lies between the worker's filter queue and the database, the commands in front of it included. */
  function Work(s: System): nat {
    20 * One(s.worker.phase == Queueing) + 12 * |s.recQueue| + MainLeft(s.worker.main) + 5 * |s.filters|
    + 4 * |s.notiChannel| + 2 * |s.receiving| + |s.coreQueue|
  }

  /** Steps that end no session and in which no filter fails. */
  predicate Carries(s: System, a: Action)
  {
    match a
    case ClientSends(_) => false
    case WorkerStep(_) => s.worker.phase == Queueing
    case FilterDone(_, ok) => ok
    case _ => true
  }

  ghost predicate SameEnds(s: System, t: System) {
    t.history.ended == s.history.ended && t.history.filterFailed == s.history.filterFailed
  }

  lemma QueueingWorks(s: System)
    requires s.worker.phase == Queueing
    ensures var t := Apply(s, WorkerStep(P.FAILS));
            SameEnds(s, t) && Work(t) < Work(s)
  {
    var t := Apply(s, WorkerStep(P.FAILS));
    assert ThreadStep(s.worker, P.FAILS).1.queued == [s.worker.session];
    assert Filters([s.worker.session]) == [Filter(s.worker.session)] + Filters([s.worker.session][1..]);
    assert |t.recQueue| == |s.recQueue| + 1;
  }

  lemma CommandWorks(s: System)
    requires s.worker.main != Ready
    ensures var t := Apply(s, CommandStep);
            SameEnds(s, t) && Work(t) < Work(s)
  {
    CommandFrame(s);
    assert |MainStep(s.worker).1.notis| == One(s.worker.main.Rejecting?);
  }

  lemma FilterWorks(s: System, k: nat)
    requires k in s.filters
    ensures var t := Apply(s, FilterDone(k, true));
            SameEnds(s, t) && Work(t) < Work(s)
  {
    assert s.filters == (s.filters - multiset{k}) + multiset{k};
  }

  lemma NextStep(s: System) returns (a: Action)
    requires Work(s) > 0
    ensures Carries(s, a) && SameEnds(s, Apply(s, a)) && Work(Apply(s, a)) < Work(s)
  {
    if s.worker.phase == Queueing {
      a := WorkerStep(P.FAILS);
      QueueingWorks(s);
    } else if s.worker.main != Ready {
      a := CommandStep;
      CommandWorks(s);
    } else if s.recQueue != [] {
      a := Take;
    } else if |s.filters| > 0 {
      var k: nat :| k in s.filters;
      a := FilterDone(k, true);
      FilterWorks(s, k);
    } else if s.coreQueue != [] {
      a := CoreStep;
    } else if s.receiving != [] {
      a := Deliver;
    } else {
      a := Receive;
    }
  }

  ghost predicate Carrying(actions: seq<Action>, more: seq<Action>) {
    forall i | 0 <= i < |more| :: Carries(Run(actions + more[..i]), more[i])
  }

  lemma CarryingFirst(actions: seq<Action>, a: Action, more: seq<Action>)
    requires Carries(Run(actions), a) && Carrying(actions + [a], more)
    ensures Carrying(actions, [a] + more) && actions + [a] + more == actions + ([a] + more)
  {
    forall i | 0 <= i < |[a] + more|
      ensures Carries(Run(actions + ([a] + more)[..i]), ([a] + more)[i])
    {
      if i == 0 {
        assert actions + ([a] + more)[..0] == actions;
      } else {
        assert actions + ([a] + more)[..i] == actions + [a] + more[..i - 1];
        assert ([a] + more)[i] == more[i - 1];
      }
    }
  }

  /** From every run, the managers' own steps, with filters that succeed, bring every saved session into
      the database, once, unless its filter has failed before. */
  lemma {:induction false} SavedCanBeInserted(actions: seq<Action>) returns (more: seq<Action>)
    ensures Carrying(actions, more) && SameEnds(Run(actions), Run(actions + more))
    ensures forall k: nat :: Run(actions + more).history.inserted[k] ==
              One(EndedSaved(Run(actions).history, k)) - Run(actions).history.filterFailed[k]
    decreases Work(Run(actions))
  {
    var s := Run(actions);
    if Work(s) == 0 {
      more := [];
      assert actions + more == actions;
      forall k: nat
        ensures s.history.inserted[k] == One(EndedSaved(s.history, k)) - s.history.filterFailed[k]
      {
        SessionsAreConserved(actions, k);
      }
    } else {
      var a := NextStep(s);
      var longer := actions + [a];
      assert longer[..|longer| - 1] == actions;
      var rest := SavedCanBeInserted(longer);
      CarryingFirst(actions, a, rest);
      more := [a] + rest;
    }
  }
}
