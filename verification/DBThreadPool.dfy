/** The database thread pool (coremgr/src/Thread/DBThreadPool.cpp): any number of workers take tasks
 * from one queue and run each under dbMutex_. Tasks are numbered in the order of their acceptance.
 * The constructor starts workers, and so does ThreadBase::run, whose own thread runs the same loop. */
module DBThreadPools {
  import opened Wrappers

  datatype Worker =
    | Waiting
    | Holding(task: nat)     // popped; about to lock dbMutex_
    | InDatabase(task: nat)  // inside dbMutex_
    | Exited

  datatype System = System(
    runningFlag: bool,
    accepted: nat,           // history: tasks that enqueueTask pushed
    tasksQueue: seq<nat>,
    workers: seq<Worker>,
    dbMutex: Option<nat>,    // the worker that has it
    entered: seq<nat>,       // history: tasks by the order in which they got dbMutex_
    finished: seq<nat>)      // history: tasks by the order of their ends

  datatype Action = Run | Stop | Enqueue | Take(w: nat) | Lock(w: nat) | Unlock(w: nat) | Exit(w: nat)

  /** The worker threads start in the constructor, before run sets the flag. */
  function Init(workers: nat): System {
    System(false, 0, [], seq(workers, _ => Waiting), None, [], [])
  }

  function With(s: System, w: nat, state: Worker): System
    requires w < |s.workers|
  {
    s.(workers := s.workers[w := state])
  }

  function Apply(s: System, a: Action): System
  {
    match a
    case Run => if s.runningFlag then s else s.(runningFlag := true, workers := s.workers + [Waiting])
    case Stop => s.(runningFlag := false)
    case Enqueue =>
      if !s.runningFlag then s else s.(tasksQueue := s.tasksQueue + [s.accepted], accepted := s.accepted + 1)
    case Take(w) =>
      if w >= |s.workers| || s.workers[w] != Waiting || !s.runningFlag || s.tasksQueue == [] then s
      else With(s.(tasksQueue := s.tasksQueue[1..]), w, Holding(s.tasksQueue[0]))
    case Lock(w) =>
      if w >= |s.workers| || !s.workers[w].Holding? || s.dbMutex.Some? then s
      else
        var t := s.workers[w].task;
        With(s.(dbMutex := Some(w), entered := s.entered + [t]), w, InDatabase(t))
    case Unlock(w) =>
      if w >= |s.workers| || !s.workers[w].InDatabase? then s
      else With(s.(dbMutex := None, finished := s.finished + [s.workers[w].task]), w, Waiting)
    case Exit(w) =>
      if w >= |s.workers| || s.workers[w] != Waiting || s.runningFlag then s else With(s, w, Exited)
  }

  function After(n: nat, actions: seq<Action>): System
    decreases |actions|
  {
    if actions == [] then Init(n) else Apply(After(n, actions[..|actions| - 1]), actions[|actions| - 1])
  }

  // ---------------------------------------------------------------- every task is in one place

  function Taken(s: System): int {
    s.accepted - |s.tasksQueue|
  }

  predicate Holds(s: System, w: nat, t: nat) {
    w < |s.workers| && s.workers[w] == Holding(t)
  }

  ghost predicate Held(s: System, t: nat) {
    exists w: nat :: Holds(s, w, t)
  }

  /** The queue is the newest tasks, in order. */
  predicate QueueInv(s: System) {
    Taken(s) >= 0 && forall i | 0 <= i < |s.tasksQueue| :: s.tasksQueue[i] == Taken(s) + i
  }

  /** The mutex is owned by the one worker inside, and the tasks that entered have all ended but its own. */
  predicate MutexInv(s: System)
  {
    && (forall w: nat | w < |s.workers| :: s.workers[w].InDatabase? <==> s.dbMutex == Some(w))
    && (s.dbMutex.Some? ==> s.dbMutex.value < |s.workers|)
    && s.entered == s.finished + if s.dbMutex.Some? then [s.workers[s.dbMutex.value].task] else []
  }

  /** A task that left the queue is held by one worker or has entered once. */
  ghost predicate TaskInv(s: System)
  {
    && (forall w: nat, t: nat | Holds(s, w, t) :: t < Taken(s) && t !in s.entered)
    && (forall v: nat, w: nat, t: nat | Holds(s, v, t) && Holds(s, w, t) :: v == w)
    && (forall i | 0 <= i < |s.entered| :: s.entered[i] < Taken(s))
    && (forall i, j | 0 <= i < j < |s.entered| :: s.entered[i] != s.entered[j])
    && (forall t: nat | t < Taken(s) :: t in s.entered || Held(s, t))
  }

  ghost predicate Inv(s: System) {
    QueueInv(s) && MutexInv(s) && TaskInv(s)
  }

  /** Workers other than those that hold something are irrelevant to TaskInv. */
  lemma SameHolders(s: System, t: System)
    requires TaskInv(s) && t.entered == s.entered && Taken(t) == Taken(s)
    requires forall w: nat, k: nat :: Holds(t, w, k) <==> Holds(s, w, k)
    ensures TaskInv(t)
  {
    forall k: nat | k < Taken(t)
      ensures k in t.entered || Held(t, k)
    {
      if k !in s.entered {
        var w: nat :| Holds(s, w, k);
        assert Holds(t, w, k);
      }
    }
  }

  lemma TakeKeeps(s: System, w: nat)
    requires Inv(s) && w < |s.workers| && s.workers[w] == Waiting && s.runningFlag && s.tasksQueue != []
    ensures Inv(Apply(s, Take(w)))
  {
    var t := Apply(s, Take(w));
    var task := s.tasksQueue[0];
    assert forall v: nat, k: nat :: Holds(t, v, k) <==> Holds(s, v, k) || (v == w && k == task);
    assert task == Taken(s) && Taken(t) == Taken(s) + 1;
    forall k: nat | k < Taken(t)
      ensures k in t.entered || Held(t, k)
    {
      if k == task {
        assert Holds(t, w, k);
      } else if k !in s.entered {
        var v: nat :| Holds(s, v, k);
        assert Holds(t, v, k);
      }
    }
  }

  lemma LockKeeps(s: System, w: nat)
    requires Inv(s) && w < |s.workers| && s.workers[w].Holding? && s.dbMutex.None?
    ensures Inv(Apply(s, Lock(w)))
  {
    var t := Apply(s, Lock(w));
    var task := s.workers[w].task;
    assert Holds(s, w, task);
    assert forall v: nat, k: nat :: Holds(t, v, k) <==> Holds(s, v, k) && v != w;
    forall k: nat | k < Taken(t)
      ensures k in t.entered || Held(t, k)
    {
      if k != task && k !in s.entered {
        var v: nat :| Holds(s, v, k);
        assert Holds(t, v, k);
      }
    }
  }

  lemma StepKeepsInv(s: System, a: Action)
    requires Inv(s)
    ensures Inv(Apply(s, a))
  {
    var t := Apply(s, a);
    match a {
      case Take(w) =>
        if w < |s.workers| && s.workers[w] == Waiting && s.runningFlag && s.tasksQueue != [] {
          TakeKeeps(s, w);
        }
      case Lock(w) =>
        if w < |s.workers| && s.workers[w].Holding? && s.dbMutex.None? {
          LockKeeps(s, w);
        }
      case _ =>
        assert forall v: nat, k: nat :: Holds(t, v, k) <==> Holds(s, v, k);
        SameHolders(s, t);
    }
  }

  lemma InitHolds(n: nat)
    ensures Inv(Init(n)) && |Init(n).workers| == n
  {
    assert forall w: nat, t: nat :: !Holds(Init(n), w, t);
  }

  lemma StepKeepsWorkers(s: System, a: Action)
    ensures |Apply(s, a).workers| >= |s.workers|
  {
  }

  lemma {:induction false} WorkersStay(n: nat, actions: seq<Action>, i: nat)
    requires i <= |actions|
    ensures |After(n, actions[..i]).workers| <= |After(n, actions).workers|
    decreases |actions|
  {
    if i == |actions| {
      assert actions[..i] == actions;
    } else {
      var m := |actions| - 1;
      WorkersStay(n, actions[..m], i);
      assert actions[..m][..i] == actions[..i];
      StepKeepsWorkers(After(n, actions[..m]), actions[m]);
    }
  }

  lemma {:induction false} RunKeepsInv(n: nat, actions: seq<Action>)
    ensures Inv(After(n, actions))
    decreases |actions|
  {
    if actions == [] {
      InitHolds(n);
    } else {
      RunKeepsInv(n, actions[..|actions| - 1]);
      StepKeepsInv(After(n, actions[..|actions| - 1]), actions[|actions| - 1]);
    }
  }

  /** In every run, with any number of workers: tasks are in the database one at a time, each accepted
      task is in exactly one of the queue, one worker's hands and the list of tasks that entered, and
      none enters twice. */
  lemma OneTaskAtATime(n: nat, actions: seq<Action>)
    ensures var s := After(n, actions);
            && |s.finished| <= |s.entered| <= |s.finished| + 1 && s.finished == s.entered[..|s.finished|]
            && (forall v: nat, w: nat | v < w < |s.workers| ::
                  !s.workers[v].InDatabase? || !s.workers[w].InDatabase?)
            && (forall t: nat :: t < s.accepted <==> t in s.tasksQueue || Held(s, t) || t in s.entered)
            && (forall t: nat | t in s.tasksQueue :: !Held(s, t) && t !in s.entered)
            && (forall t: nat | Held(s, t) :: t !in s.entered)
            && (forall i, j | 0 <= i < j < |s.entered| :: s.entered[i] != s.entered[j])
  {
    RunKeepsInv(n, actions);
    var s := After(n, actions);
    forall t: nat
      ensures t < s.accepted <==> t in s.tasksQueue || Held(s, t) || t in s.entered
    {
      if Taken(s) <= t < s.accepted {
        assert s.tasksQueue[t - Taken(s)] == t;
      }
    }
  }

  // ---------------------------------------------------------------- the order of the tasks

  predicate InOrder(tasks: seq<nat>) {
    forall i | 0 <= i < |tasks| :: tasks[i] == i
  }

  /** The worker gets dbMutex_ while another one still holds an older task. */
  ghost predicate Overtakes(s: System, a: Action)
  {
    && a.Lock? && a.w < |s.workers| && s.workers[a.w].Holding? && s.dbMutex.None?
    && exists t: nat :: t < s.workers[a.w].task && Held(s, t)
  }

  lemma OrderStep(s: System, a: Action)
    requires Inv(s)
    ensures InOrder(Apply(s, a).entered) <==> InOrder(s.entered) && !Overtakes(s, a)
  {
    var t := Apply(s, a);
    if a.Lock? && t.entered != s.entered {
      var task := s.workers[a.w].task;
      assert Holds(s, a.w, task);
      assert t.entered == s.entered + [task];
      var k: nat := |s.entered|;
      assert t.entered[k] == task && t.entered[..k] == s.entered;
      assert InOrder(t.entered) <==> InOrder(s.entered) && task == k;
      if InOrder(s.entered) {
        InOrderHas(s.entered);
        if task > k {
          assert k !in s.entered && Held(s, k);
        }
      }
    }
  }

  lemma InOrderHas(tasks: seq<nat>)
    requires InOrder(tasks)
    ensures forall t: nat :: t in tasks <==> t < |tasks|
  {
    forall t: nat | t < |tasks|
      ensures t in tasks
    {
      assert tasks[t] == t;
    }
  }

  ghost predicate OvertakesAt(n: nat, actions: seq<Action>, i: nat) {
    i < |actions| && Overtakes(After(n, actions[..i]), actions[i])
  }

  ghost predicate NeverOvertakes(n: nat, actions: seq<Action>) {
    forall i: nat :: !OvertakesAt(n, actions, i)
  }

  lemma NeverBefore(n: nat, actions: seq<Action>)
    requires actions != []
    ensures var m := |actions| - 1;
            var now := Overtakes(After(n, actions[..m]), actions[m]);
            NeverOvertakes(n, actions) <==> NeverOvertakes(n, actions[..m]) && !now
  {
    var m := |actions| - 1;
    var now := Overtakes(After(n, actions[..m]), actions[m]);
    forall i: nat
      ensures OvertakesAt(n, actions, i) <==> OvertakesAt(n, actions[..m], i) || (i == m && now)
    {
      if i < m {
        assert actions[..m][..i] == actions[..i];
      }
    }
    assert OvertakesAt(n, actions, m) <==> Overtakes(After(n, actions[..m]), actions[m]);
  }

  /** The tasks use the database in the order of their acceptance if and only if no worker overtakes
      another between the queue and dbMutex_. */
  lemma {:induction false} OrderIsKept(n: nat, actions: seq<Action>)
    ensures InOrder(After(n, actions).entered) <==> NeverOvertakes(n, actions)
    decreases |actions|
  {
    if actions == [] {
    } else {
      var m := |actions| - 1;
      OrderIsKept(n, actions[..m]);
      RunKeepsInv(n, actions[..m]);
      OrderStep(After(n, actions[..m]), actions[m]);
      NeverBefore(n, actions);
    }
  }

  lemma AloneNeverOvertakes(s: System, a: Action)
    requires Inv(s) && |s.workers| <= 1
    ensures !Overtakes(s, a)
  {
  }

  /** One thread keeps the order. */
  lemma OneWorkerKeepsOrder(n: nat, actions: seq<Action>)
    requires |After(n, actions).workers| <= 1
    ensures InOrder(After(n, actions).entered)
  {
    forall i: nat
      ensures !OvertakesAt(n, actions, i)
    {
      if i < |actions| {
        RunKeepsInv(n, actions[..i]);
        WorkersStay(n, actions, i);
        AloneNeverOvertakes(After(n, actions[..i]), actions[i]);
      }
    }
    OrderIsKept(n, actions);
  }

  /** Every caller waits for its future before the next task is submitted. */
  predicate CallersWait(n: nat, actions: seq<Action>) {
    forall i | 0 <= i < |actions| && actions[i] == Enqueue ::
      After(n, actions[..i]).accepted == |After(n, actions[..i]).finished|
  }

  lemma PrefixWaits(n: nat, actions: seq<Action>, m: nat)
    requires CallersWait(n, actions) && m <= |actions|
    ensures CallersWait(n, actions[..m])
  {
    assert forall i | 0 <= i < m :: actions[..m][..i] == actions[..i] && actions[..m][i] == actions[i];
  }

  lemma StepCounts(s: System, a: Action)
    ensures Apply(s, a).accepted <= s.accepted + if a == Enqueue then 1 else 0
    ensures |Apply(s, a).finished| >= |s.finished|
  {
  }

  lemma {:induction false} OneOutstanding(n: nat, actions: seq<Action>)
    requires CallersWait(n, actions)
    ensures After(n, actions).accepted <= |After(n, actions).finished| + 1
    decreases |actions|
  {
    if actions == [] {
    } else {
      var m := |actions| - 1;
      PrefixWaits(n, actions, m);
      OneOutstanding(n, actions[..m]);
      StepCounts(After(n, actions[..m]), actions[m]);
    }
  }

  lemma OneTaskNeverOvertakes(s: System, a: Action)
    requires Inv(s) && s.accepted <= |s.finished| + 1
    ensures !Overtakes(s, a)
  {
    if Overtakes(s, a) {
      var u := s.workers[a.w].task;
      var t: nat :| t < u && Held(s, t);
      assert Holds(s, a.w, u);
      TwoOutside(s, t, u);
    }
  }

  /** So do callers that wait, as the database handler does, with any number of workers. */
  lemma WaitingCallersKeepOrder(n: nat, actions: seq<Action>)
    requires CallersWait(n, actions)
    ensures InOrder(After(n, actions).entered)
  {
    forall i: nat
      ensures !OvertakesAt(n, actions, i)
    {
      if i < |actions| {
        PrefixWaits(n, actions, i);
        OneOutstanding(n, actions[..i]);
        RunKeepsInv(n, actions[..i]);
        OneTaskNeverOvertakes(After(n, actions[..i]), actions[i]);
      }
    }
    OrderIsKept(n, actions);
  }

  /** Two tasks in workers' hands are two that are not finished. */
  lemma TwoOutside(s: System, t: nat, u: nat)
    requires Inv(s) && Held(s, t) && Held(s, u) && t < u
    ensures |s.finished| + 2 <= s.accepted
  {
    var w: nat :| Holds(s, w, t);
    var v: nat :| Holds(s, v, u);
    DistinctBelow(s.entered + [t, u], s.accepted);
  }

  lemma {:induction false} DistinctBelow(xs: seq<nat>, bound: nat)
    requires forall i | 0 <= i < |xs| :: xs[i] < bound
    requires forall i, j | 0 <= i < j < |xs| :: xs[i] != xs[j]
    ensures |xs| <= bound
  {
    var seen := set i | 0 <= i < |xs| :: xs[i];
    SeenAll(xs);
    Below(seen, bound);
  }

  lemma {:induction false} SeenAll(xs: seq<nat>)
    requires forall i, j | 0 <= i < j < |xs| :: xs[i] != xs[j]
    ensures |set i | 0 <= i < |xs| :: xs[i]| == |xs|
  {
    if xs == [] {
    } else {
      var m := |xs| - 1;
      SeenAll(xs[..m]);
      assert (set i | 0 <= i < |xs| :: xs[i]) == (set i | 0 <= i < m :: xs[..m][i]) + {xs[m]};
    }
  }

  lemma {:induction false} Below(seen: set<nat>, bound: nat)
    requires forall x | x in seen :: x < bound
    ensures |seen| <= bound
    decreases bound
  {
    if bound > 0 {
      Below(seen - {bound - 1}, bound - 1);
    } else {
      assert seen == {};
    }
  }

  lemma OneMore(n: nat, actions: seq<Action>, a: Action) returns (s: System)
    ensures s == After(n, actions + [a]) == Apply(After(n, actions), a)
  {
    s := After(n, actions + [a]);
    assert (actions + [a])[..|actions + [a]| - 1] == actions;
  }

  /** A pool made with one worker has two threads once it runs: with a caller that does not wait, the
      second task can get the database first. */
  lemma OneWorkerPoolCanReorder()
    ensures After(1, [] + [Run] + [Enqueue] + [Enqueue] + [Take(0)] + [Take(1)] + [Lock(1)]).entered == [1]
  {
    var s := OneMore(1, [], Run);
    s := OneMore(1, [] + [Run], Enqueue);
    s := OneMore(1, [] + [Run] + [Enqueue], Enqueue);
    assert s.tasksQueue == [0, 1];
    s := OneMore(1, [] + [Run] + [Enqueue] + [Enqueue], Take(0));
    s := OneMore(1, [] + [Run] + [Enqueue] + [Enqueue] + [Take(0)], Take(1));
    assert s.workers[1] == Holding(1);
    s := OneMore(1, [] + [Run] + [Enqueue] + [Enqueue] + [Take(0)] + [Take(1)], Lock(1));
  }

  // ---------------------------------------------------------------- progress

  /** Worker `w` has not left its loop. */
  predicate Alive(s: System, w: nat) {
    w < |s.workers| && s.workers[w] != Exited
  }

  ghost predicate SomeAlive(s: System) {
    exists w: nat :: Alive(s, w)
  }

  lemma StepKeepsAlive(s: System, a: Action)
    requires s.runningFlag ==> SomeAlive(s)
    ensures Apply(s, a).runningFlag ==> SomeAlive(Apply(s, a))
  {
    var t := Apply(s, a);
    if t.runningFlag {
      if !s.runningFlag {
        assert Alive(t, |s.workers|);
      } else {
        var w: nat :| Alive(s, w);
        assert Alive(t, w);
      }
    }
  }

  /** A running pool has a thread, even if those of the constructor met the cleared flag and left. */
  lemma {:induction false} RunningHasWorker(n: nat, actions: seq<Action>)
    ensures After(n, actions).runningFlag ==> SomeAlive(After(n, actions))
    decreases |actions|
  {
    if actions == [] {
    } else {
      RunningHasWorker(n, actions[..|actions| - 1]);
      StepKeepsAlive(After(n, actions[..|actions| - 1]), actions[|actions| - 1]);
    }
  }

  predicate WorkerStep(a: Action) {
    a.Take? || a.Lock? || a.Unlock?
  }

  predicate Working(actions: seq<Action>) {
    forall i | 0 <= i < |actions| :: WorkerStep(actions[i])
  }

  ghost predicate Done(s: System) {
    s.tasksQueue == [] && s.dbMutex.None? && forall w: nat, t: nat :: !Holds(s, w, t)
  }

  /** Who has the database leaves it; or who holds a task enters; or a worker takes the next task. */
  lemma NextWork(s: System) returns (a: Action)
    requires Inv(s) && s.runningFlag && SomeAlive(s) && !Done(s)
    ensures WorkerStep(a)
    ensures var t := Apply(s, a);
            && t.runningFlag && t.accepted == s.accepted
            && |t.finished| + |t.entered| - |t.tasksQueue| == |s.finished| + |s.entered| - |s.tasksQueue| + 1
  {
    if s.dbMutex.Some? {
      a := Unlock(s.dbMutex.value);
    } else if w: nat, t: nat :| Holds(s, w, t) {
      a := Lock(w);
    } else {
      var w: nat :| Alive(s, w);
      assert s.workers[w] == Waiting by {
        if s.workers[w].Holding? {
          assert Holds(s, w, s.workers[w].task);
        }
      }
      a := Take(w);
    }
  }

  lemma EnteredFit(s: System)
    requires Inv(s)
    ensures |s.finished| <= |s.entered| <= s.accepted
  {
    DistinctBelow(s.entered, s.accepted);
  }

  /** What is left to be done for the accepted tasks. */
  function Rest(s: System): int {
    2 * s.accepted - |s.finished| - |s.entered| + |s.tasksQueue|
  }

  lemma AllFinished(s: System)
    requires Inv(s) && Done(s)
    ensures forall k: nat :: k in s.finished <==> k < s.accepted
    ensures |s.finished| == s.accepted
  {
    assert s.finished == s.entered;
    EnteredFit(s);
    AllBelow(s.finished, s.accepted);
  }

  lemma {:induction false} AllBelow(xs: seq<nat>, bound: nat)
    requires forall k: nat | k < bound :: k in xs
    ensures bound <= |xs|
    decreases bound
  {
    if bound > 0 {
      var last: nat := bound - 1;
      assert last in xs;
      var i :| 0 <= i < |xs| && xs[i] == last;
      var ys := xs[..i] + xs[i + 1..];
      forall k: nat | k < bound - 1
        ensures k in ys
      {
        assert k in xs;
        var j :| 0 <= j < |xs| && xs[j] == k;
        assert ys[if j < i then j else j - 1] == k;
      }
      AllBelow(ys, bound - 1);
    }
  }

  ghost function Continue(s: System, actions: seq<Action>): System
    decreases |actions|
  {
    if actions == [] then s else Apply(Continue(s, actions[..|actions| - 1]), actions[|actions| - 1])
  }

  lemma {:induction false} ContinueFirst(s: System, a: Action, actions: seq<Action>)
    ensures Continue(s, [a] + actions) == Continue(Apply(s, a), actions)
    decreases |actions|
  {
    if actions == [] {
      assert [a] + actions == [a] && [a][..0] == [];
    } else {
      assert ([a] + actions)[..|actions|] == [a] + actions[..|actions| - 1];
      ContinueFirst(s, a, actions[..|actions| - 1]);
    }
  }

  lemma {:induction false} AfterBoth(n: nat, actions: seq<Action>, more: seq<Action>)
    ensures After(n, actions + more) == Continue(After(n, actions), more)
    decreases |more|
  {
    if more == [] {
      assert actions + more == actions;
    } else {
      assert (actions + more)[..|actions + more| - 1] == actions + more[..|more| - 1];
      AfterBoth(n, actions, more[..|more| - 1]);
    }
  }

  ghost predicate AllFinish(t: System, accepted: nat) {
    t.accepted == accepted == |t.finished| && forall k: nat :: k in t.finished <==> k < accepted
  }

  lemma {:induction false} Finishes(s: System) returns (more: seq<Action>)
    requires Inv(s) && s.runningFlag && SomeAlive(s)
    ensures Working(more) && AllFinish(Continue(s, more), s.accepted)
    decreases if Rest(s) < 0 then 0 else Rest(s)
  {
    if Done(s) {
      AllFinished(s);
      more := [];
    } else {
      var a := NextWork(s);
      var t := Apply(s, a);
      StepKeepsInv(s, a);
      StepKeepsAlive(s, a);
      EnteredFit(t);
      var rest := Finishes(t);
      ContinueFirst(s, a, rest);
      more := [a] + rest;
    }
  }

  /** From every run whose pool is running, the workers alone can bring every accepted task to its end. */
  lemma TasksCanFinish(n: nat, actions: seq<Action>) returns (more: seq<Action>)
    requires After(n, actions).runningFlag
    ensures Working(more) && AllFinish(After(n, actions + more), After(n, actions).accepted)
  {
    RunKeepsInv(n, actions);
    RunningHasWorker(n, actions);
    more := Finishes(After(n, actions));
    AfterBoth(n, actions, more);
  }

  /** A task in the queue of a stopped pool stays there until someone runs the pool again: its caller's
      future is not answered. */
  lemma {:induction false} StoppedKeepsQueue(n: nat, actions: seq<Action>, more: seq<Action>)
    requires !After(n, actions).runningFlag && Run !in more
    ensures !After(n, actions + more).runningFlag
    ensures After(n, actions + more).tasksQueue == After(n, actions).tasksQueue
    ensures forall t | t in After(n, actions).tasksQueue :: t !in After(n, actions + more).entered
    decreases |more|
  {
    if more == [] {
      assert actions + more == actions;
    } else {
      var m := |more| - 1;
      StoppedKeepsQueue(n, actions, more[..m]);
      var s := OneMore(n, actions + more[..m], more[m]);
      assert actions + more == actions + more[..m] + [more[m]];
    }
    OneTaskAtATime(n, actions + more);
  }

  function Steps(w: Worker): nat {
    match w case Holding(_) => 3 case InDatabase(_) => 2 case Waiting => 1 case Exited => 0
  }

  function StepsLeft(ws: seq<Worker>): nat
    decreases |ws|
  {
    if ws == [] then 0 else StepsLeft(ws[..|ws| - 1]) + Steps(ws[|ws| - 1])
  }

  lemma {:induction false} StepTaken(ws: seq<Worker>, w: nat, state: Worker)
    requires w < |ws| && Steps(state) < Steps(ws[w])
    ensures StepsLeft(ws[w := state]) < StepsLeft(ws)
    decreases |ws|
  {
    var m := |ws| - 1;
    if w == m {
      assert ws[w := state][..m] == ws[..m];
    } else {
      StepTaken(ws[..m], w, state);
      assert ws[w := state][..m] == ws[..m][w := state];
    }
  }

  ghost predicate AllExited(s: System) {
    forall w: nat :: !Alive(s, w)
  }

  /** The tasks accepted by `s` are in its queue or finished in `t`. */
  predicate NoneLost(s: System, t: System) {
    forall k: nat | k < s.accepted :: k in s.tasksQueue || k in t.finished
  }

  lemma NextLeaving(s: System) returns (a: Action)
    requires Inv(s) && !s.runningFlag && !AllExited(s)
    ensures a != Run && a != Enqueue && !a.Take?
    ensures StepsLeft(Apply(s, a).workers) < StepsLeft(s.workers) && !Apply(s, a).runningFlag
  {
    if s.dbMutex.Some? {
      a := Unlock(s.dbMutex.value);
      StepTaken(s.workers, s.dbMutex.value, Waiting);
    } else {
      var w: nat :| Alive(s, w);
      if s.workers[w].Holding? {
        a := Lock(w);
        StepTaken(s.workers, w, InDatabase(s.workers[w].task));
      } else {
        a := Exit(w);
        StepTaken(s.workers, w, Exited);
      }
    }
  }

  lemma NoneAtWork(s: System)
    requires Inv(s) && AllExited(s)
    ensures NoneLost(s, s)
  {
    if s.dbMutex.Some? {
      assert Alive(s, s.dbMutex.value);
    }
    forall t: nat
      ensures !Held(s, t)
    {
      if w: nat :| Holds(s, w, t) {
        assert Alive(s, w);
      }
    }
    assert s.entered == s.finished;
    forall k: nat | k < s.accepted
      ensures k in s.tasksQueue || k in s.finished
    {
      if k >= Taken(s) {
        assert s.tasksQueue[k - Taken(s)] == k;
      }
    }
  }

  lemma QueueStays(s: System, a: Action)
    requires a != Run && a != Enqueue && !a.Take?
    ensures Apply(s, a).tasksQueue == s.tasksQueue && Apply(s, a).accepted == s.accepted
  {
  }

  lemma {:induction false} Exits(s: System) returns (more: seq<Action>)
    requires Inv(s) && !s.runningFlag
    ensures Run !in more && AllExited(Continue(s, more)) && NoneLost(s, Continue(s, more))
    decreases StepsLeft(s.workers)
  {
    if AllExited(s) {
      more := [];
      NoneAtWork(s);
    } else {
      var a := NextLeaving(s);
      StepKeepsInv(s, a);
      var rest := Exits(Apply(s, a));
      QueueStays(s, a);
      ContinueFirst(s, a, rest);
      more := [a] + rest;
    }
  }

  /** From every run whose pool is stopped, its threads can all end, and so the destructor's joins; each
      first finishes the task in its hands, and nobody takes another. */
  lemma PoolCanShutDown(n: nat, actions: seq<Action>) returns (more: seq<Action>)
    requires !After(n, actions).runningFlag
    ensures Run !in more
    ensures AllExited(After(n, actions + more)) && NoneLost(After(n, actions), After(n, actions + more))
  {
    RunKeepsInv(n, actions);
    more := Exits(After(n, actions));
    AfterBoth(n, actions, more);
  }

  datatype Meanwhile<Task> = Quiet | Enqueues(task: Task) | Stopped

  predicate Stops<Task>(others: seq<Meanwhile<Task>>)
    decreases |others|
  {
    others != [] && (others[|others| - 1].Stopped? || Stops(others[..|others| - 1]))
  }

  /** The tasks that a running pool accepts: those submitted before it is stopped. */
  function Accepted<Task>(others: seq<Meanwhile<Task>>): seq<Task>
    decreases |others|
  {
    if others == [] then []
    else
      var earlier := others[..|others| - 1];
      var last := others[|others| - 1];
      Accepted(earlier) + if last.Enqueues? && !Stops(earlier) then [last.task] else []
  }

  /** The passes that a worker of a running pool makes before it is stopped. */
  function Passes<Task>(others: seq<Meanwhile<Task>>): nat
    decreases |others|
  {
    if others == [] then 0
    else Passes(others[..|others| - 1]) + if Stops(others) then 0 else 1
  }

  lemma OneMoreMeanwhile<Task>(others: seq<Meanwhile<Task>>, i: nat)
    requires i < |others|
    ensures Stops(others[..i + 1]) <==> others[i].Stopped? || Stops(others[..i])
    ensures Accepted(others[..i + 1]) ==
      Accepted(others[..i]) + if others[i].Enqueues? && !Stops(others[..i]) then [others[i].task] else []
    ensures Passes(others[..i + 1]) == Passes(others[..i]) + if Stops(others[..i + 1]) then 0 else 1
  {
    assert others[..i + 1][..i] == others[..i] && others[..i + 1][i] == others[i];
  }

  class DBThreadPool<Task> {
    var runningFlag: bool
    var tasksQueue: seq<Task>
    ghost var submitted: seq<Task>   // accepted by enqueueTask
    ghost var taken: seq<Task>

    ghost predicate Valid()
      reads this
    {
      taken + tasksQueue == submitted
    }

    constructor ()
      ensures Valid() && !runningFlag && submitted == []
    {
      runningFlag := false;
      tasksQueue, submitted, taken := [], [], [];
    }

    /** The flag; the thread that it starts runs ThreadFunction. */
    method Run()
      requires Valid()
      modifies this`runningFlag
      ensures Valid() && runningFlag
    {
      runningFlag := true;
    }

    method Stop()
      requires Valid()
      modifies this`runningFlag
      ensures Valid() && !runningFlag
    {
      runningFlag := false;
    }

    /** A stopped pool drops the task. */
    method EnqueueTask(task: Task)
      requires Valid()
      modifies this`tasksQueue, this`submitted
      ensures Valid() && submitted == old(submitted) + if runningFlag then [task] else []
    {
      if !runningFlag {
        return;
      }
      tasksQueue := tasksQueue + [task];
      submitted := submitted + [task];
    }

    /** What other threads do to the pool. */
    method OtherThreads(m: Meanwhile<Task>)
      requires Valid()
      modifies this`runningFlag, this`tasksQueue, this`submitted
      ensures Valid() && runningFlag == (old(runningFlag) && m != Stopped)
      ensures submitted == old(submitted) + if m.Enqueues? && old(runningFlag) then [m.task] else []
    {
      match m {
        case Enqueues(task) => EnqueueTask(task);
        case Stopped => Stop();
        case Quiet =>
      }
    }

    /** One pass of a worker through its loop: it takes the oldest task of a running pool. */
    method TakeOne() returns (ran: seq<Task>)
      requires Valid()
      modifies this`tasksQueue, this`taken
      ensures Valid() && taken == old(taken) + ran
      ensures if runningFlag && old(tasksQueue) != [] then |ran| == 1 && |tasksQueue| == |old(tasksQueue)| - 1
              else ran == [] && tasksQueue == old(tasksQueue)
    {
      ran := [];
      if runningFlag && tasksQueue != [] {
        ran := [tasksQueue[0]];
        taken := taken + [tasksQueue[0]];
        tasksQueue := tasksQueue[1..];
      }
    }

    /** One worker, while other threads do `others[i]` before its pass i, until it waits or exits after
        the last of them. A pool that runs on has run everything that was submitted, oldest first; one
        that is stopped takes nothing any more. */
    method ThreadFunction(others: seq<Meanwhile<Task>>) returns (ran: seq<Task>)
      requires Valid()
      modifies this`runningFlag, this`tasksQueue, this`submitted, this`taken
      ensures Valid() && taken == old(taken) + ran
      ensures runningFlag == (old(runningFlag) && !Stops(others))
      ensures submitted == old(submitted) + if old(runningFlag) then Accepted(others) else []
      ensures runningFlag ==> taken == submitted
      ensures !runningFlag ==> |ran| <= if old(runningFlag) then Passes(others) else 0
    {
      ran := [];
      var i := 0;
      while i < |others| || (runningFlag && tasksQueue != [])
        invariant 0 <= i <= |others| && Valid() && taken == old(taken) + ran
        invariant runningFlag == (old(runningFlag) && !Stops(others[..i]))
        invariant submitted == old(submitted) + if old(runningFlag) then Accepted(others[..i]) else []
        invariant i < |others| || !runningFlag ==> |ran| <= if old(runningFlag) then Passes(others[..i]) else 0
        decreases |others| - i, |tasksQueue|
      {
        if i < |others| {
          OneMoreMeanwhile(others, i);
          OtherThreads(others[i]);
          i := i + 1;
        }
        var one := TakeOne();
        ran := ran + one;
      }
      assert others[..i] == others;
    }
  }
}
