/** The timer thread makes progress: from every prompt run it can go on by itself, and when it does,
 * every timer that nobody stops is pushed in time. */
module TimerProgress {
  import opened Wrappers
  import opened Timers
  import opened TimerProtocol

  /** What the timer thread does by itself, and the passing of time. */
  predicate OfThread(a: Action) {
    a.Tick? || a == ReadClock || a.Extract? || a == Push || a == Doze || a.Sleep? || a == Wake
  }

  predicate AllOfThread(actions: seq<Action>) {
    forall i | 0 <= i < |actions| :: OfThread(actions[i])
  }

  /** `longer` is the prompt run `actions`, continued promptly by the timer thread alone. */
  ghost predicate Continues(actions: seq<Action>, longer: seq<Action>) {
    PromptRun(longer) && actions <= longer && AllOfThread(longer[|actions|..])
  }

  lemma OneMore(actions: seq<Action>, a: Action)
    requires PromptRun(actions) && Prompt(Run(actions), a)
    ensures Run(actions + [a]) == Apply(Run(actions), a) && PromptRun(actions + [a])
  {
    assert (actions + [a])[..|actions + [a]| - 1] == actions;
  }

  lemma ContinuesMore(actions: seq<Action>, a: Action, longer: seq<Action>)
    requires OfThread(a) && Continues(actions + [a], longer)
    ensures Continues(actions, longer)
  {
    var n := |actions|;
    assert actions <= longer && longer[n] == (actions + [a])[n] == a;
    forall i | 0 <= i < |longer[n..]|
      ensures OfThread(longer[n..][i])
    {
      assert i > 0 ==> longer[n..][i] == longer[n + 1..][i - 1];
    }
  }

  // ---------------------------------------------------------------- a sweep and a sleep are always possible

  lemma EnumerationExists(table: Table<Event>, now: int, keys: set<int>) returns (order: seq<Element<Event>>)
    requires IsTable(table) && keys <= table.Keys
    ensures forall i | 0 <= i < |order| ::
              order[i].timerId in keys && table[order[i].timerId] == order[i] && Due(order[i], now)
    ensures forall i, j | 0 <= i < j < |order| :: order[i].timerId != order[j].timerId
    ensures forall k | k in keys && Due(table[k], now) :: table[k] in order
    decreases |keys|
  {
    if keys == {} {
      order := [];
    } else {
      var k := Any(keys);
      order := EnumerationExists(table, now, keys - {k});
      if Due(table[k], now) {
        var before := order;
        order := order + [table[k]];
        assert forall x | x in before :: x in order;
        assert order[|before|] == table[k];
      }
    }
  }

  lemma OrderExists(table: Table<Event>, now: int) returns (order: seq<Element<Event>>)
    requires IsTable(table)
    ensures Enumerates(order, table, now)
  {
    order := EnumerationExists(table, now, table.Keys);
  }

  lemma EarliestExists(table: Table<Event>, keys: set<int>) returns (k: int)
    requires keys != {} && keys <= table.Keys
    ensures k in keys && forall j | j in keys :: table[k].expireTime <= table[j].expireTime
    decreases |keys|
  {
    k := Any(keys);
    if keys != {k} {
      var j := EarliestExists(table, keys - {k});
      if table[j].expireTime < table[k].expireTime {
        k := j;
      }
    }
  }

  lemma DeadlineExists(table: Table<Event>, current: int) returns (deadline: int)
    ensures IsDeadline(deadline, table, current)
  {
    deadline := current + 2500;
    if table != map[] {
      var k := EarliestExists(table, table.Keys);
      if table[k].expireTime < deadline {
        deadline := table[k].expireTime;
      }
    }
  }

  // ---------------------------------------------------------------- the clock advances

  predicate NoneDue(s: System) {
    forall k | k in s.table :: !Due(s.table[k], s.now)
  }

  /** How far the thread is from a sleep that takes time. A sleep over a timer that is already due
      takes none, and one more sweep is needed. */
  function Stage(s: System): nat
  {
    match s.phase
    case Pushing(_) => if NoneDue(s) then 2 else 7
    case Dozing(_) => if NoneDue(s) then 1 else 6
    case Asleep(deadline, _) => if deadline > s.now then 0 else 5
    case Awake => 4
    case Sweeping(_) => 3
  }

  /** Short of a sleep that takes time, the thread has a step that brings it nearer. */
  lemma NextStep(s: System) returns (a: Action)
    requires IsTable(s.table) && Stage(s) > 0
    requires s.phase.Sweeping? || s.phase.Pushing? || s.phase.Dozing? ==> s.phase.time == s.now
    ensures OfThread(a) && Prompt(s, a) && Apply(s, a).now == s.now
    ensures var t := Apply(s, a);
            Stage(t) < Stage(s) || (Stage(t) == Stage(s) && |t.expired| < |s.expired|)
  {
    match s.phase {
      case Pushing(_) =>
        a := if s.expired != [] then Push else Doze;
        assert Apply(s, a).table == s.table;
      case Dozing(time) =>
        var deadline := DeadlineExists(s.table, time);
        a := Sleep(deadline);
      case Asleep(_, _) => a := Wake;
      case Awake => a := ReadClock;
      case Sweeping(time) =>
        if s.table == map[] {
          a := Doze;
        } else {
          var order := OrderExists(s.table, time);
          a := Extract(order);
        }
    }
  }

  /** Every prompt run can be continued by the timer thread alone to a later time. */
  lemma {:induction false} ClockAdvances(actions: seq<Action>) returns (longer: seq<Action>)
    requires PromptRun(actions)
    ensures Continues(actions, longer) && Run(longer).now > Run(actions).now
    decreases Stage(Run(actions)), |Run(actions).expired|
  {
    var s := Run(actions);
    ContinueKeepsInv(Init(), actions);
    PromptRunsOnTime(actions);
    if Stage(s) == 0 {
      var a := Tick(s.phase.deadline - s.now);
      OneMore(actions, a);
      longer := actions + [a];
    } else {
      var a := NextStep(s);
      OneMore(actions, a);
      longer := ClockAdvances(actions + [a]);
      ContinuesMore(actions, a, longer);
    }
  }

  lemma ContinuesTrans(a: seq<Action>, b: seq<Action>, c: seq<Action>)
    requires Continues(a, b) && Continues(b, c)
    ensures Continues(a, c)
  {
    forall i | 0 <= i < |c[|a|..]|
      ensures OfThread(c[|a|..][i])
    {
      if i < |b| - |a| {
        assert c[|a|..][i] == b[|a|..][i];
      } else {
        assert c[|a|..][i] == c[|b|..][i - (|b| - |a|)];
      }
    }
  }

  /** And so beyond every time: a prompt thread is never stuck. */
  lemma {:induction false} ClockPasses(actions: seq<Action>, time: int) returns (longer: seq<Action>)
    requires PromptRun(actions)
    ensures Continues(actions, longer) && Run(longer).now > time
    decreases time - Run(actions).now
  {
    longer := ClockAdvances(actions);
    if Run(longer).now <= time {
      var further := ClockPasses(longer, time);
      ContinuesTrans(actions, longer, further);
      longer := further;
    }
  }

  // ---------------------------------------------------------------- every timer is pushed

  ghost predicate InTable(s: System, x: Element<Event>) {
    x.timerId in s.table && s.table[x.timerId] == x
  }

  ghost predicate InLog(s: System, x: Element<Event>) {
    exists j :: 0 <= j < |s.fired| && s.fired[j].element == x
  }

  /** The element itself is where its instance is: it is never replaced by another. */
  ghost predicate Somewhere(s: System, x: Element<Event>) {
    InTable(s, x) || x in s.expired || InLog(s, x) || x.instance in s.stopped
  }

  lemma LogGrows(s: System, t: System, x: Element<Event>)
    requires s.fired <= t.fired && InLog(s, x)
    ensures InLog(t, x)
  {
    var j :| 0 <= j < |s.fired| && s.fired[j].element == x;
    assert t.fired[j] == s.fired[j];
  }

  lemma PushMoves(s: System, x: Element<Event>)
    requires x in s.expired && s.phase.Pushing?
    ensures x in Apply(s, Push).expired || InLog(Apply(s, Push), x)
  {
    var t := Apply(s, Push);
    assert t.expired == s.expired[1..] && t.fired == s.fired + [Fired(s.expired[0], s.now)];
    if x == s.expired[0] {
      assert t.fired[|s.fired|].element == x;
    }
  }

  lemma StepKeepsSomewhere(s: System, a: Action, x: Element<Event>)
    requires Inv(s) && Somewhere(s, x)
    ensures Somewhere(Apply(s, a), x)
  {
    var t := Apply(s, a);
    if InLog(s, x) {
      LogGrows(s, t, x);
    } else if x.instance in s.stopped {
      assert s.stopped <= t.stopped;
    } else if x in s.expired {
      if a == Push && s.phase.Pushing? {
        PushMoves(s, x);
      } else {
        assert t.expired == s.expired;
      }
    } else {
      match a {
        case Extract(order) =>
          if t.table != s.table && Due(x, s.phase.time) {
            assert x in order;
          }
        case Stop(id) => assert id == x.timerId || InTable(t, x) || id !in s.table;
        case _ =>
      }
    }
  }

  lemma {:induction false} StaysSomewhere(actions: seq<Action>, longer: seq<Action>, x: Element<Event>)
    requires actions <= longer && Somewhere(Run(actions), x)
    ensures Somewhere(Run(longer), x)
    decreases |longer|
  {
    if longer == actions {
    } else {
      var n := |longer| - 1;
      assert actions <= longer[..n];
      assert Run(longer) == Apply(Run(longer[..n]), longer[n]);
      StaysSomewhere(actions, longer[..n], x);
      ContinueKeepsInv(Init(), longer[..n]);
      StepKeepsSomewhere(Run(longer[..n]), longer[n], x);
    }
  }

  ghost predicate PushedInTime(s: System, x: Element<Event>) {
    exists j :: 0 <= j < |s.fired| && s.fired[j].element == x && x.expireTime <= s.fired[j].at <= Latest(x)
  }

  /** Once the clock of a prompt run has passed max(e, since + 2500), whatever clients did meanwhile, a
      timer that was in the table has been pushed in time or stopped. */
  lemma PushedInTimeOrStopped(actions: seq<Action>, longer: seq<Action>, k: int)
    requires PromptRun(longer) && actions <= longer && k in Run(actions).table
    requires Run(longer).now > Latest(Run(actions).table[k])
    ensures var x := Run(actions).table[k];
            PushedInTime(Run(longer), x) || x.instance in Run(longer).stopped
  {
    var x := Run(actions).table[k];
    var s := Run(longer);
    ContinueKeepsInv(Init(), actions);
    StaysSomewhere(actions, longer, x);
    LatenessBound(longer);
    if InLog(s, x) {
      var j :| 0 <= j < |s.fired| && s.fired[j].element == x;
      assert x.expireTime <= s.fired[j].at <= Latest(x);
    }
  }

  lemma {:induction false} ThreadStopsNone(actions: seq<Action>, longer: seq<Action>)
    requires actions <= longer && AllOfThread(longer[|actions|..])
    ensures Run(longer).stopped == Run(actions).stopped
    decreases |longer|
  {
    if longer == actions {
    } else {
      var n := |longer| - 1;
      assert longer[|actions|..][n - |actions|] == longer[n];
      assert longer[..n][|actions|..] == longer[|actions|..][..n - |actions|];
      ThreadStopsNone(actions, longer[..n]);
    }
  }

  /** Every timer is pushed: from every prompt run the timer thread alone, promptly, comes to push each
      timer of the table at some f with e <= f <= max(e, since + 2500). */
  lemma EveryTimerIsPushed(actions: seq<Action>, k: int)
    requires PromptRun(actions) && k in Run(actions).table
    ensures exists longer :: Continues(actions, longer) && PushedInTime(Run(longer), Run(actions).table[k])
  {
    var x := Run(actions).table[k];
    var longer := ClockPasses(actions, Latest(x));
    PushedInTimeOrStopped(actions, longer, k);
    ThreadStopsNone(actions, longer);
    ContinueKeepsInv(Init(), actions);
    assert Has(Run(actions).fate, x.instance, LIVE(k));
    assert x.instance !in Run(longer).stopped;
    assert Continues(actions, longer) && PushedInTime(Run(longer), x);
  }
}
