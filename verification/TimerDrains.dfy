/** The timer thread alone can empty the table: every step below brings it nearer, whatever the phase. */
module TimerDrains {
  import opened Wrappers
  import opened Timers
  import opened TimerProtocol
  import P = TimerProgress

  predicate AllDue(table: Table<Event>, time: int) {
    forall k | k in table :: Due(table[k], time)
  }

  predicate Empty(t: System) {
    t.table == map[] && t.expired == []
  }

  /** Steps until a sweep that takes everything out. */
  function Stage(t: System): nat
  {
    match t.phase
    case Sweeping(time) => if AllDue(t.table, time) then 1 else 8
    case Pushing(_) => 7
    case Dozing(_) => 6
    case Asleep(deadline, _) => if deadline > t.now then 5 else 4
    case Awake => if AllDue(t.table, t.now) then 2 else 3
  }

  ghost predicate Nearer(t: System, u: System)
  {
    || |u.table.Keys| < |t.table.Keys|
    || (|u.table.Keys| == |t.table.Keys| && Stage(u) < Stage(t))
    || (|u.table.Keys| == |t.table.Keys| && Stage(u) == Stage(t) && |u.expired| < |t.expired|)
  }

  lemma {:induction false} LatestExists(table: Table<Event>, keys: set<int>) returns (time: int)
    requires keys <= table.Keys
    ensures forall k | k in keys :: table[k].expireTime <= time
    decreases |keys|
  {
    if keys == {} {
      time := 0;
    } else {
      var k := Any(keys);
      time := LatestExists(table, keys - {k});
      if time < table[k].expireTime {
        time := table[k].expireTime;
      }
    }
  }

  lemma SweepShrinks(table: Table<Event>, now: int)
    ensures |Unexpired(table, now).Keys| <= |table.Keys|
    ensures table != map[] && AllDue(table, now) ==> |Unexpired(table, now).Keys| < |table.Keys|
  {
    var rest := Unexpired(table, now).Keys;
    var gone := table.Keys - rest;
    assert table.Keys == rest + gone;
    if table != map[] && AllDue(table, now) {
      var k := Any(table.Keys);
      assert forall x :: x !in rest;
      assert rest == {} && k in gone;
    }
  }

  lemma SleepingStep(t: System) returns (b: Action)
    requires t.phase.Asleep? || t.phase.Awake?
    ensures P.OfThread(b) && b != Push && Apply(t, b).starter == t.starter && Nearer(t, Apply(t, b))
  {
    if t.phase.Asleep? {
      b := if t.phase.deadline > t.now then Tick(t.phase.deadline - t.now) else Wake;
    } else if AllDue(t.table, t.now) {
      b := ReadClock;
    } else {
      var time := LatestExists(t.table, t.table.Keys);
      b := Tick(if time > t.now then time - t.now else 0);
      assert AllDue(t.table, Apply(t, b).now);
    }
  }

  lemma SweepingStep(t: System) returns (b: Action)
    requires Inv(t) && t.table != map[] && t.phase.Sweeping?
    ensures P.OfThread(b) && b != Push && Apply(t, b).starter == t.starter && Nearer(t, Apply(t, b))
  {
    var order := P.OrderExists(t.table, t.phase.time);
    b := Extract(order);
    SweepShrinks(t.table, t.phase.time);
  }

  /** Every step of the timer thread brings it nearer to an empty table. */
  lemma NextStep(t: System) returns (b: Action)
    requires Inv(t) && !Empty(t)
    ensures P.OfThread(b) && Apply(t, b).starter == t.starter && Nearer(t, Apply(t, b))
  {
    match t.phase {
      case Sweeping(_) => b := SweepingStep(t);
      case Pushing(_) => b := if t.expired != [] then Push else Doze;
      case Dozing(time) =>
        var deadline := P.DeadlineExists(t.table, time);
        b := Sleep(deadline);
      case _ => b := SleepingStep(t);
    }
  }
}
