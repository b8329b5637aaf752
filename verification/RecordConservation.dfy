/** From a saved session to the database: nothing is dropped or duplicated on the way. Everything is
 * counted for one session `k`. */
module RecordConservation {
  import opened Wrappers
  import opened RecordHandlers
  import opened RecordWorkers
  import opened RecordProtocol

  function FiltersQueued(q: seq<RecEvent>, k: nat): nat
  {
    if q == [] then 0 else One(q[0] == Filter(k)) + FiltersQueued(q[1..], k)
  }

  /** Successful filter notifications that core's receiver has not turned into an INSERT event yet. */
  function FiltersSent(ns: seq<Noti>, k: nat): nat
  {
    if ns == [] then 0 else One(ns[0] == Noti(FILTER_NOTI, true, k)) + FiltersSent(ns[1..], k)
  }

  function InsertsQueued(q: seq<CoreEvent>, k: nat): nat
  {
    if q == [] then 0 else One(q[0] == Insert(k)) + InsertsQueued(q[1..], k)
  }

  /** The places session `k` can be in on its way to the database. */
  function Places(s: System, k: nat): nat
  {
    One(s.worker.phase == Queueing && s.worker.session == k) // STOP success sent, filter event not queued yet
    + FiltersQueued(s.recQueue, k) + s.filters[k] + FiltersSent(s.notiChannel, k)
    + s.history.filterFailed[k] + InsertsQueued(s.coreQueue, k) + s.history.inserted[k]
  }

  predicate EndedSaved(h: History, k: nat) {
    k in h.ended && h.ended[k] == Noti(STOP_NOTI, true, k)
  }

  ghost predicate Inv(s: System, k: nat)
  {
    && WellFormed(s.worker)
    && (k in s.history.ended ==> k <= s.worker.session)
    && (Open(s.worker) ==> s.worker.session !in s.history.ended)
    && Places(s, k) == One(EndedSaved(s.history, k))
  }

  lemma {:induction false} FiltersQueuedConcat(a: seq<RecEvent>, b: seq<RecEvent>, k: nat)
    ensures FiltersQueued(a + b, k) == FiltersQueued(a, k) + FiltersQueued(b, k)
  {
    if a == [] {
      assert a + b == b;
    } else {
      assert (a + b)[1..] == a[1..] + b;
      FiltersQueuedConcat(a[1..], b, k);
    }
  }

  lemma {:induction false} FiltersSentConcat(a: seq<Noti>, b: seq<Noti>, k: nat)
    ensures FiltersSent(a + b, k) == FiltersSent(a, k) + FiltersSent(b, k)
  {
    if a == [] {
      assert a + b == b;
    } else {
      assert (a + b)[1..] == a[1..] + b;
      FiltersSentConcat(a[1..], b, k);
    }
  }

  lemma {:induction false} InsertsQueuedConcat(a: seq<CoreEvent>, b: seq<CoreEvent>, k: nat)
    ensures InsertsQueued(a + b, k) == InsertsQueued(a, k) + InsertsQueued(b, k)
  {
    if a == [] {
      assert a + b == b;
    } else {
      assert (a + b)[1..] == a[1..] + b;
      InsertsQueuedConcat(a[1..], b, k);
    }
  }

  lemma ThreadFacts(w: Worker, o: Oracle)
    requires WellFormed(w)
    ensures var (v, out) := ThreadStep(w, o);
            && WellFormed(v)
            && (v.phase == Queueing <==> w.phase == Reporting(Noti(STOP_NOTI, true, w.session)))
            && v.session == w.session + One(w.phase == Opened)
            && (Open(v) ==> w.phase == Opened || Open(w))
            && (w.phase.Reporting? && Open(w) ==> !Open(v))
            && out.queued == (if w.phase == Queueing then [w.session] else [])
            && forall n | n in out.notis :: IsVerdict(n)
  {
  }

  lemma {:induction false} NoFilterSent(ns: seq<Noti>, k: nat)
    requires forall n | n in ns :: IsVerdict(n)
    ensures FiltersSent(ns, k) == 0
  {
    if ns == [] {
    } else {
      assert IsVerdict(ns[0]);
      NoFilterSent(ns[1..], k);
    }
  }

  /** The final notification decides whether the session has a place; queueing it keeps the place. */
  lemma WorkerStepKeeps(s: System, o: Oracle, k: nat)
    requires Inv(s, k) && Inv(s, s.worker.session + 1)
    ensures Inv(Apply(s, WorkerStep(o)), k)
  {
    var (w, out) := ThreadStep(s.worker, o);
    var t := Apply(s, WorkerStep(o));
    ThreadFacts(s.worker, o);
    NoFilterSent(out.notis, k);
    FiltersSentConcat(s.notiChannel, out.notis, k);
    FiltersQueuedConcat(s.recQueue, Filters(out.queued), k);
    WorkerStepAdds(s, t, w, out, k);
  }

  lemma WorkerStepAdds(s: System, t: System, w: Worker, out: Output, k: nat)
    requires Inv(s, k) && Inv(s, s.worker.session + 1)
    requires t == s.(worker := w, notiChannel := t.notiChannel, recQueue := t.recQueue, history := t.history)
    requires t.history == WorkerHistory(s, out)
    requires FiltersSent(t.notiChannel, k) == FiltersSent(s.notiChannel, k)
    requires FiltersQueued(t.recQueue, k) == FiltersQueued(s.recQueue, k) + FiltersQueued(Filters(out.queued), k)
    requires WellFormed(w)
    requires w.phase == Queueing <==> s.worker.phase == Reporting(Noti(STOP_NOTI, true, s.worker.session))
    requires w.session == s.worker.session + One(s.worker.phase == Opened)
    requires Open(w) ==> s.worker.phase == Opened || Open(s.worker)
    requires s.worker.phase.Reporting? && Open(s.worker) ==> !Open(w)
    requires out.queued == (if s.worker.phase == Queueing then [s.worker.session] else [])
    ensures Inv(t, k)
  {
    assert FiltersQueued(Filters(out.queued), k) == One(s.worker.phase == Queueing && s.worker.session == k);
    if s.worker.phase.Reporting? && Open(s.worker) {
      assert t.history.ended == s.history.ended[s.worker.session := s.worker.phase.noti];
      assert EndedSaved(t.history, k) ==
        if k == s.worker.session then w.phase == Queueing else EndedSaved(s.history, k);
    } else {
      assert t.history.ended == s.history.ended;
    }
  }

  lemma CommandFrame(s: System)
    ensures var t := Apply(s, CommandStep);
            && t == s.(worker := t.worker, notiChannel := t.notiChannel, history := t.history)
            && t.notiChannel == s.notiChannel + MainStep(s.worker).1.notis
            && t.worker.phase == s.worker.phase && t.worker.session == s.worker.session
            && t.history == s.history.(armedInGap := t.history.armedInGap, lostStart := t.history.lostStart)
    ensures forall n | n in MainStep(s.worker).1.notis :: IsVerdict(n)
  {
  }

  lemma CommandStepKeeps(s: System, k: nat)
    requires Inv(s, k)
    ensures Inv(Apply(s, CommandStep), k)
  {
    var ns := MainStep(s.worker).1.notis;
    CommandFrame(s);
    FiltersSentConcat(s.notiChannel, ns, k);
    NoFilterSent(ns, k);
  }

  lemma ReceiveKeeps(s: System, k: nat)
    requires Inv(s, k)
    ensures Inv(Apply(s, Receive), k)
  {
    if s.receiving == [] && s.notiChannel != [] {
      InsertsQueuedConcat(s.coreQueue, [Insert(s.notiChannel[0].session)], k);
      assert s.coreQueue + [] == s.coreQueue;
    }
  }

  lemma CoreEventKeeps(s: System, a: Action, k: nat)
    requires Inv(s, k) && (a.ClientSends? || a == Deliver)
    ensures Inv(Apply(s, a), k)
  {
    if a.ClientSends? {
      InsertsQueuedConcat(s.coreQueue, [FromClient(a.cmd)], k);
    } else if s.receiving != [] {
      InsertsQueuedConcat(s.coreQueue, [FromRecorder(s.receiving[0])], k);
    }
  }

  lemma ArrivalKeeps(s: System, k: nat)
    requires Inv(s, k)
    ensures Inv(Apply(s, CommandArrives), k)
  {
    if s.cmdChannel != [] {
      FiltersQueuedConcat(s.recQueue, [Do(s.cmdChannel[0])], k);
    }
  }

  lemma FilterKeeps(s: System, j: nat, ok: bool, k: nat)
    requires Inv(s, k)
    ensures Inv(Apply(s, FilterDone(j, ok)), k)
  {
    FiltersSentConcat(s.notiChannel, [Noti(FILTER_NOTI, ok, j)], k);
  }

  lemma CoreKeeps(s: System, k: nat)
    requires Inv(s, k)
    ensures Inv(Apply(s, CoreStep), k)
  {
    var t := Apply(s, CoreStep);
    assert t.worker == s.worker && t.recQueue == s.recQueue && t.notiChannel == s.notiChannel && t.filters == s.filters;
    assert t.history.ended == s.history.ended && t.history.filterFailed == s.history.filterFailed;
    if s.coreQueue != [] {
      assert t.coreQueue == s.coreQueue[1..];
      assert t.history.inserted[k] == s.history.inserted[k] + One(s.coreQueue[0] == Insert(k));
    }
  }

  lemma TakeKeeps(s: System, k: nat)
    requires Inv(s, k)
    ensures Inv(Apply(s, Take), k)
  {
    var t := Apply(s, Take);
    assert t.worker.phase == s.worker.phase && t.worker.session == s.worker.session && t.notiChannel == s.notiChannel;
    assert t.coreQueue == s.coreQueue && t.history == s.history;
    if s.worker.main == Ready && s.recQueue != [] {
      assert t.recQueue == s.recQueue[1..];
      assert t.filters[k] == s.filters[k] + One(s.recQueue[0] == Filter(k));
    }
  }

  lemma {:induction false} RunKeepsInv(actions: seq<Action>, k: nat)
    ensures Inv(Run(actions), k)
    decreases |actions|
  {
    if actions == [] {
    } else {
      var before := actions[..|actions| - 1];
      RunKeepsInv(before, k);
      match actions[|actions| - 1] {
        case WorkerStep(o) =>
          RunKeepsInv(before, Run(before).worker.session + 1);
          WorkerStepKeeps(Run(before), o, k);
        case CommandStep => CommandStepKeeps(Run(before), k);
        case Receive => ReceiveKeeps(Run(before), k);
        case CommandArrives => ArrivalKeeps(Run(before), k);
        case FilterDone(j, ok) => FilterKeeps(Run(before), j, ok, k);
        case CoreStep => CoreKeeps(Run(before), k);
        case Take => TakeKeeps(Run(before), k);
        case a => CoreEventKeeps(Run(before), a, k);
      }
    }
  }

  /** Every session that ended in STOP success is in exactly one place: about to be queued, queued for
      filtering, being filtered, notified, failed to filter, queued for insertion, or inserted. Every
      other session, cancelled, empty, in error or still open, is in none of them. */
  lemma SessionsAreConserved(actions: seq<Action>, k: nat)
    ensures Places(Run(actions), k) == One(EndedSaved(Run(actions).history, k))
  {
    RunKeepsInv(actions, k);
  }

  /** No session is inserted twice, and only a saved one is inserted. */
  lemma InsertedOnceAndOnlyIfSaved(actions: seq<Action>, k: nat)
    ensures Run(actions).history.inserted[k] <= One(EndedSaved(Run(actions).history, k))
  {
    RunKeepsInv(actions, k);
  }
}
