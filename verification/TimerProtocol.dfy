/** The timer service under interleaving: one thread starts timers, any thread stops them, and the
 * timer thread sweeps, pushes and sleeps. One action is one locked section, clock reading or push. */
module TimerProtocol {
  import opened Wrappers
  import opened Timers

  /** The event a timer carries: the device address of its BTDEVICE_REQUEST_CONFIRMATION_TIMEOUT. */
  type Event = string

  /** The starting thread between createNewTimerId, the clock reading and the insertion. */
  datatype Starter =
    | Idle
    | Chosen(id: int, timeoutMs: nat, event: Event)
    | Made(id: int, expireTime: int, event: Event)

  datatype Phase =
    | Awake
    | Sweeping(time: int)              // clock read, table not swept yet
    | Pushing(time: int)               // list extracted, events still to push
    | Dozing(time: int)                // about to compute the sleep
    | Asleep(deadline: int, mapSize: nat)

  datatype Fired = Fired(element: Element<Event>, at: int)

  datatype System = System(
    now: int,
    next: int,                          // nextTimerId
    table: Table<Event>,
    starter: Starter,
    phase: Phase,
    expired: seq<Element<Event>>,           // extracted, not pushed yet
    fired: seq<Fired>,               // pushed to the event queue
    stopped: set<nat>,                  // instances for which stopTimer returned true
    started: nat,                       // instances inserted so far
    fate: map<nat, Fate>)               // history: where each instance is

  datatype Fate = LIVE(id: int) | EXTRACTED | PUSHED | STOPPED

  datatype Action =
    | Tick(d: nat)
    | Choose(timeoutMs: nat, event: Event)
    | Stamp
    | Put
    | Stop(id: int)
    | ReadClock
    | Extract(order: seq<Element<Event>>)
    | Push
    | Doze
    | Sleep(deadline: int)
    | Wake

  function Init(): System {
    System(0, 1, map[], Idle, Awake, [], [], {}, 0, map[])
  }

  ghost function Apply(s: System, a: Action): System
  {
    match a
    case Tick(d) => s.(now := s.now + d)
    case Choose(timeoutMs, event) =>
      if s.starter != Idle || |s.table.Keys| >= IDS || !(1 <= s.next <= INT32_MAX) then s
      else
        var id := FirstFree(if s.next == INT32_MAX then 1 else s.next, 0, s.table.Keys);
        s.(next := id, starter := Chosen(id, timeoutMs, event))
    case Stamp =>
      if s.starter.Chosen? then s.(starter := Made(s.starter.id, s.now + s.starter.timeoutMs, s.starter.event)) else s
    case Put => if s.starter.Made? then Inserted(s) else s
    case Stop(id) =>
      if id !in s.table then s
      else
        var i := s.table[id].instance;
        s.(table := s.table - {id}, stopped := s.stopped + {i}, fate := s.fate[i := STOPPED])
    case ReadClock => if s.phase == Awake then s.(phase := Sweeping(s.now)) else s
    case Extract(order) =>
      if s.phase.Sweeping? && Enumerates(order, s.table, s.phase.time) then
        s.(phase := Pushing(s.phase.time), table := Unexpired(s.table, s.phase.time), expired := order,
           fate := Swept(s.fate, s.table, s.phase.time))
      else s
    case Push =>
      if s.phase.Pushing? && s.expired != [] then
        s.(expired := s.expired[1..], fired := s.fired + [Fired(s.expired[0], s.now)],
           fate := s.fate[s.expired[0].instance := PUSHED])
      else s
    case Doze =>
      if s.phase.Pushing? && s.expired == [] then s.(phase := Dozing(s.phase.time))
      else if s.phase.Sweeping? && s.table == map[] then s.(phase := Dozing(s.phase.time))
      else s
    case Sleep(deadline) =>
      if s.phase.Dozing? && IsDeadline(deadline, s.table, s.phase.time) then
        s.(phase := Asleep(deadline, |s.table|))
      else s
    case Wake =>
      if s.phase.Asleep? && (s.phase.deadline <= s.now || |s.table| != s.phase.mapSize) then s.(phase := Awake) else s
  }

  /** unordered_map::insert: an id that is already there keeps its old element. */
  function Inserted(s: System): System
    requires s.starter.Made?
  {
    var x := Element(s.starter.id, s.starter.expireTime, s.starter.event, s.started, s.now);
    s.(starter := Idle, started := s.started + 1, fate := s.fate[s.started := LIVE(x.timerId)],
       table := if x.timerId in s.table then s.table else s.table[x.timerId := x])
  }

  function Swept(fate: map<nat, Fate>, table: Table<Event>, now: int): map<nat, Fate> {
    map i | i in fate ::
      if fate[i].LIVE? && fate[i].id in table && Due(table[fate[i].id], now) then EXTRACTED else fate[i]
  }

  ghost function Continue(s: System, actions: seq<Action>): System
    decreases |actions|
  {
    if actions == [] then s else Apply(Continue(s, actions[..|actions| - 1]), actions[|actions| - 1])
  }

  ghost function Run(actions: seq<Action>): System {
    Continue(Init(), actions)
  }

  // ---------------------------------------------------------------- the invariant

  predicate Has(fate: map<nat, Fate>, i: nat, f: Fate) {
    i in fate && fate[i] == f
  }

  /** The table holds exactly the live instances. */
  ghost predicate TableInv(s: System)
  {
    && IsTable(s.table) && 1 <= s.next <= INT32_MAX
    && (s.starter != Idle ==> 1 <= s.starter.id < INT32_MAX && s.starter.id !in s.table)
    && (forall k | k in s.table :: Has(s.fate, s.table[k].instance, LIVE(k)))
    && (forall i | i in s.fate && s.fate[i].LIVE? :: s.fate[i].id in s.table && s.table[s.fate[i].id].instance == i)
  }

  /** The list holds exactly the extracted instances, each once. */
  ghost predicate ListInv(s: System)
  {
    && (forall j | 0 <= j < |s.expired| :: Has(s.fate, s.expired[j].instance, EXTRACTED))
    && (forall j, l | 0 <= j < l < |s.expired| :: s.expired[j].instance != s.expired[l].instance)
    && (forall i | i in s.fate && s.fate[i] == EXTRACTED :: Extracted(s, i))
  }

  /** The log holds exactly the pushed instances, each once. */
  ghost predicate LogInv(s: System)
  {
    && (forall j | 0 <= j < |s.fired| :: Has(s.fate, s.fired[j].element.instance, PUSHED))
    && (forall j, l | 0 <= j < l < |s.fired| :: s.fired[j].element.instance != s.fired[l].element.instance)
    && (forall i | i in s.fate && s.fate[i] == PUSHED :: Pushed(s, i))
  }

  ghost predicate FateInv(s: System)
  {
    && (forall i: nat :: i in s.fate <==> i < s.started)
    && (forall i: nat :: i in s.stopped <==> Has(s.fate, i, STOPPED))
  }

  /** Nothing leaves the table for the list before its expiry. */
  ghost predicate TimeInv(s: System)
  {
    && (s.phase.Sweeping? || s.phase.Pushing? || s.phase.Dozing? ==> s.phase.time <= s.now)
    && (s.expired != [] ==> s.phase.Pushing?)
    && (forall j | 0 <= j < |s.expired| :: s.expired[j].expireTime <= s.now)
    && (forall j | 0 <= j < |s.fired| :: s.fired[j].element.expireTime <= s.fired[j].at <= s.now)
  }

  ghost predicate Inv(s: System) {
    TableInv(s) && ListInv(s) && LogInv(s) && FateInv(s) && TimeInv(s)
  }

  ghost predicate Live(s: System, i: nat) {
    exists k :: k in s.table && s.table[k].instance == i
  }

  ghost predicate Extracted(s: System, i: nat) {
    exists j :: 0 <= j < |s.expired| && s.expired[j].instance == i
  }

  ghost predicate Pushed(s: System, i: nat) {
    exists j :: 0 <= j < |s.fired| && s.fired[j].element.instance == i
  }

  /** A step that leaves the list and the extracted instances alone keeps ListInv. */
  lemma SameList(s: System, t: System)
    requires ListInv(s) && t.expired == s.expired
    requires forall i: nat :: Has(t.fate, i, EXTRACTED) <==> Has(s.fate, i, EXTRACTED)
    ensures ListInv(t)
  {
    forall i | i in t.fate && t.fate[i] == EXTRACTED
      ensures Extracted(t, i)
    {
      assert Has(s.fate, i, EXTRACTED) && Extracted(s, i);
    }
  }

  /** A step that leaves the log and the pushed instances alone keeps LogInv. */
  lemma SameLog(s: System, t: System)
    requires LogInv(s) && t.fired == s.fired
    requires forall i: nat :: Has(t.fate, i, PUSHED) <==> Has(s.fate, i, PUSHED)
    ensures LogInv(t)
  {
    forall i | i in t.fate && t.fate[i] == PUSHED
      ensures Pushed(t, i)
    {
      assert Has(s.fate, i, PUSHED) && Pushed(s, i);
    }
  }

  lemma PutKeeps(s: System)
    requires Inv(s)
    ensures Inv(Apply(s, Put))
  {
    var t := Apply(s, Put);
    if s.starter.Made? {
      assert t.fate == s.fate[s.started := LIVE(s.starter.id)] && s.started !in s.fate;
    }
    SameList(s, t);
    SameLog(s, t);
  }

  lemma StopKeepsTable(s: System, id: int)
    requires Inv(s)
    ensures TableInv(Apply(s, Stop(id))) && FateInv(Apply(s, Stop(id)))
  {
    var t := Apply(s, Stop(id));
    if id in s.table {
      assert t.fate == s.fate[s.table[id].instance := STOPPED] && t.table == s.table - {id};
    }
  }

  lemma StopKeeps(s: System, id: int)
    requires Inv(s)
    ensures Inv(Apply(s, Stop(id)))
  {
    var t := Apply(s, Stop(id));
    StopKeepsTable(s, id);
    if id in s.table {
      assert Has(s.fate, s.table[id].instance, LIVE(id));
    }
    SameList(s, t);
    SameLog(s, t);
  }

  lemma ExtractKeeps(s: System, order: seq<Element<Event>>)
    requires Inv(s)
    ensures Inv(Apply(s, Extract(order)))
  {
    var t := Apply(s, Extract(order));
    SameLog(s, t);
    if s.phase.Sweeping? && Enumerates(order, s.table, s.phase.time) {
      forall i | i in t.fate && t.fate[i] == EXTRACTED
        ensures Extracted(t, i)
      {
        assert !Extracted(s, i);
        var x := s.table[s.fate[i].id];
        assert x in order;
      }
    }
  }

  lemma PushKeepsList(s: System)
    requires Inv(s) && s.phase.Pushing? && s.expired != []
    ensures ListInv(Apply(s, Push))
  {
    var t := Apply(s, Push);
    assert t.expired == s.expired[1..] && t.fate == s.fate[s.expired[0].instance := PUSHED];
    forall i | i in t.fate && t.fate[i] == EXTRACTED
      ensures Extracted(t, i)
    {
      assert Extracted(s, i);
      var j :| 0 <= j < |s.expired| && s.expired[j].instance == i;
      assert t.expired[j - 1] == s.expired[j];
    }
  }

  lemma PushKeepsLog(s: System)
    requires Inv(s) && s.phase.Pushing? && s.expired != []
    ensures LogInv(Apply(s, Push))
  {
    var t := Apply(s, Push);
    var first := s.expired[0].instance;
    assert Has(s.fate, first, EXTRACTED);
    assert t.fired == s.fired + [Fired(s.expired[0], s.now)] && t.fate == s.fate[first := PUSHED];
    forall i | i in t.fate && t.fate[i] == PUSHED
      ensures Pushed(t, i)
    {
      if i == first {
        assert t.fired[|s.fired|].element.instance == i;
      } else {
        assert Pushed(s, i);
        var j :| 0 <= j < |s.fired| && s.fired[j].element.instance == i;
        assert t.fired[j] == s.fired[j];
      }
    }
  }

  lemma PushKeeps(s: System)
    requires Inv(s)
    ensures Inv(Apply(s, Push))
  {
    if s.phase.Pushing? && s.expired != [] {
      var t := Apply(s, Push);
      PushKeepsList(s);
      PushKeepsLog(s);
      assert Has(s.fate, s.expired[0].instance, EXTRACTED);
      assert t.table == s.table && t.stopped == s.stopped && t.started == s.started && t.starter == s.starter;
    }
  }

  lemma ChooseKeepsTable(s: System, timeoutMs: nat, event: Event)
    requires TableInv(s)
    ensures TableInv(Apply(s, Choose(timeoutMs, event)))
  {
    assert Apply(s, Choose(timeoutMs, event)).table == s.table;
  }

  lemma OthersKeep(s: System, a: Action)
    requires Inv(s) && !a.Stop? && !a.Extract? && a != Put && a != Push
    ensures Inv(Apply(s, a))
  {
    var t := Apply(s, a);
    assert t.table == s.table && t.expired == s.expired && t.fired == s.fired && t.fate == s.fate;
    assert t.started == s.started && t.stopped == s.stopped;
    if a.Choose? {
      ChooseKeepsTable(s, a.timeoutMs, a.event);
    }
    SameList(s, t);
    SameLog(s, t);
  }

  lemma StepKeepsInv(s: System, a: Action)
    requires Inv(s)
    ensures Inv(Apply(s, a))
  {
    match a {
      case Put => PutKeeps(s);
      case Stop(id) => StopKeeps(s, id);
      case Extract(order) => ExtractKeeps(s, order);
      case Push => PushKeeps(s);
      case _ => OthersKeep(s, a);
    }
  }

  lemma {:induction false} ContinueKeepsInv(s: System, actions: seq<Action>)
    requires Inv(s)
    ensures Inv(Continue(s, actions))
    decreases |actions|
  {
    if actions == [] {
    } else {
      ContinueKeepsInv(s, actions[..|actions| - 1]);
      StepKeepsInv(Continue(s, actions[..|actions| - 1]), actions[|actions| - 1]);
    }
  }

  // ---------------------------------------------------------------- exactly one fate

  /** Under any interleaving every started timer is in exactly one of four places, and nothing else is
      in any: live, extracted and waiting to be pushed, pushed, or stopped. A pushed one was pushed
      once, and not before its expiry. */
  lemma ExactlyOneFate(actions: seq<Action>, i: nat)
    ensures var s := Run(actions);
            && One(Live(s, i)) + One(Extracted(s, i)) + One(Pushed(s, i)) + One(i in s.stopped) == One(i < s.started)
            && (forall j, l | 0 <= j < l < |s.fired| :: s.fired[j].element.instance != s.fired[l].element.instance)
            && (forall j | 0 <= j < |s.fired| :: s.fired[j].element.expireTime <= s.fired[j].at)
  {
    var s := Run(actions);
    ContinueKeepsInv(Init(), actions);
    if i in s.fate && s.fate[i].LIVE? {
      assert s.table[s.fate[i].id].instance == i;
    }
  }

  /** The id found under the lock is still free when its element is inserted, because there is one
      starting thread; so no insertion is refused. */
  lemma ChosenIdStaysFree(actions: seq<Action>)
    requires Run(actions).starter != Idle
    ensures Run(actions).starter.id !in Run(actions).table
  {
    ContinueKeepsInv(Init(), actions);
  }

  /** And it is the first free one on the circle, from the id after which the last search ended. */
  lemma ChosenIdIsFirstFree(s: System, timeoutMs: nat, event: Event)
    requires s.starter == Idle && |s.table.Keys| < IDS && 1 <= s.next <= INT32_MAX
    ensures var t := Apply(s, Choose(timeoutMs, event));
            var start := if s.next == INT32_MAX then 1 else s.next;
            && t.starter.Chosen? && t.next == t.starter.id && t.starter.id !in s.table
            && exists m :: 0 <= m <= |s.table.Keys| && t.starter.id == Walk(start, m)
                           && forall j | 0 <= j < m :: Walk(start, j) in s.table
  {
  }

  lemma {:induction false} StoppedStays(s: System, actions: seq<Action>, i: nat)
    requires Inv(s) && i in s.stopped
    ensures i in Continue(s, actions).stopped
    decreases |actions|
  {
    if actions == [] {
    } else {
      StoppedStays(s, actions[..|actions| - 1], i);
    }
  }

  /** When stopTimer returns true the timer it removed is never pushed, whatever happens next. */
  lemma StoppedIsNeverPushed(before: seq<Action>, id: int, later: seq<Action>)
    requires id in Run(before).table
    ensures var i := Run(before).table[id].instance;
            !Pushed(Continue(Apply(Run(before), Stop(id)), later), i)
  {
    var s := Apply(Run(before), Stop(id));
    var i := Run(before).table[id].instance;
    ContinueKeepsInv(Init(), before);
    StopKeeps(Run(before), id);
    ContinueKeepsInv(s, later);
    StoppedStays(s, later, i);
  }

  // ---------------------------------------------------------------- lateness

  /** Sweeps cost no time: time passes only while the thread sleeps, and not beyond its deadline. The
      wake-up on a changed table size may come or not, whenever it likes. */
  predicate Prompt(s: System, a: Action) {
    a.Tick? && a.d > 0 ==> s.phase.Asleep? && s.now + a.d <= s.phase.deadline
  }

  ghost predicate PromptRun(actions: seq<Action>)
    decreases |actions|
  {
    actions == [] ||
    var before := actions[..|actions| - 1];
    PromptRun(before) && Prompt(Run(before), actions[|actions| - 1])
  }

  /** The latest time at which a timer may still be waiting. */
  function Latest(x: Element<Event>): int {
    if x.expireTime >= x.since + 2500 then x.expireTime else x.since + 2500
  }

  ghost predicate OnTime(s: System)
  {
    && (forall k | k in s.table :: s.table[k].since <= s.now <= Latest(s.table[k]))
    && (forall j | 0 <= j < |s.expired| :: s.now <= Latest(s.expired[j]))
    && (forall j | 0 <= j < |s.fired| :: s.fired[j].at <= Latest(s.fired[j].element))
    && (s.phase.Sweeping? || s.phase.Pushing? || s.phase.Dozing? ==> s.phase.time == s.now)
    && (s.phase.Asleep? ==>
          && s.phase.deadline <= s.now + 2500
          && forall k | k in s.table :: s.phase.deadline <= Latest(s.table[k]))
  }

  lemma TickOnTime(s: System, d: nat)
    requires TimeInv(s) && OnTime(s) && Prompt(s, Tick(d))
    ensures OnTime(Apply(s, Tick(d)))
  {
  }

  lemma ExtractOnTime(s: System, order: seq<Element<Event>>)
    requires OnTime(s)
    ensures OnTime(Apply(s, Extract(order)))
  {
    var t := Apply(s, Extract(order));
    assert t.now == s.now && t.fired == s.fired;
  }

  lemma PutOnTime(s: System)
    requires OnTime(s)
    ensures OnTime(Apply(s, Put))
  {
    var t := Apply(s, Put);
    assert t.now == s.now && t.phase == s.phase && t.expired == s.expired && t.fired == s.fired;
  }

  lemma PromptStepOnTime(s: System, a: Action)
    requires Inv(s) && OnTime(s) && Prompt(s, a)
    ensures OnTime(Apply(s, a))
  {
    match a {
      case Tick(d) => TickOnTime(s, d);
      case Extract(order) => ExtractOnTime(s, order);
      case Put => PutOnTime(s);
      case _ => assert Apply(s, a).now == s.now;
    }
  }

  lemma {:induction false} PromptRunsOnTime(actions: seq<Action>)
    requires PromptRun(actions)
    ensures OnTime(Run(actions))
    decreases |actions|
  {
    if actions == [] {
    } else {
      var before := actions[..|actions| - 1];
      PromptRunsOnTime(before);
      ContinueKeepsInv(Init(), before);
      PromptStepOnTime(Run(before), actions[|actions| - 1]);
    }
  }

  /** Lateness: a timer inserted at `since` with expiry e is pushed at some f with
      e <= f <= max(e, since + 2500), and until then it is not past that bound; a timer that expires
      2500 ms or more after its insertion is pushed exactly at its expiry. */
  lemma LatenessBound(actions: seq<Action>)
    requires PromptRun(actions)
    ensures var s := Run(actions);
            && (forall k | k in s.table :: s.now <= Latest(s.table[k]))
            && (forall j | 0 <= j < |s.expired| :: s.now <= Latest(s.expired[j]))
            && (forall j | 0 <= j < |s.fired| ::
                  var x := s.fired[j].element;
                  && x.expireTime <= s.fired[j].at <= Latest(x)
                  && (x.since + 2500 <= x.expireTime ==> s.fired[j].at == x.expireTime))
  {
    PromptRunsOnTime(actions);
    ContinueKeepsInv(Init(), actions);
  }
}
