/** The core manager's timer service (coremgr/src/Thread/Timer.cpp): the table, the id search, the
 * sweep and the computation of the next sleep. Time is in milliseconds. */
module Timers {
  import opened Wrappers

  const INT32_MAX: int := 0x7FFF_FFFF
  /** The number of ids, 1 to INT32_MAX - 1. */
  const IDS: int := INT32_MAX - 1
  const INTERNAL_SLEEP_TIMEOUT_MS: int := 2500

  /** A TimerElement. `instance` and `since` (its place in the order of insertions and the time of its
      insertion) are history: the code identifies a timer by `timerId` alone, and reuses ids. */
  datatype Element<E> = Element(timerId: int, expireTime: int, event: E, instance: nat, since: int)

  type Table<E> = map<int, Element<E>>

  ghost predicate IsTable<E>(table: Table<E>) {
    forall k | k in table :: 1 <= k < INT32_MAX && table[k].timerId == k
  }

  // ---------------------------------------------------------------- the id search

  /** The id reached from `start` after `n` increments with wrap-around. */
  function Walk(start: int, n: int): int {
    if start + n < INT32_MAX then start + n else start + n - IDS
  }

  /** Pigeonhole: a walk that only met ids of `keys` is no longer than `keys`. */
  lemma {:induction false} WalkIsShort(start: int, n: nat, keys: set<int>)
    requires 1 <= start < INT32_MAX && n <= IDS
    requires forall m | 0 <= m < n :: Walk(start, m) in keys
    ensures n <= |keys|
    decreases n
  {
    if n == 0 {
    } else {
      var last := Walk(start, n - 1);
      forall m | 0 <= m < n - 1
        ensures Walk(start, m) in keys - {last}
      {
      }
      WalkIsShort(start, n - 1, keys - {last});
    }
  }

  /** The first id from `start` on that is not taken. */
  function FirstFree(start: int, n: nat, keys: set<int>): (id: int)
    requires 1 <= start < INT32_MAX && |keys| < IDS && n <= |keys|
    requires forall m | 0 <= m < n :: Walk(start, m) in keys
    ensures 1 <= id < INT32_MAX && id !in keys
    ensures exists m :: n <= m <= |keys| && id == Walk(start, m) && forall j | 0 <= j < m :: Walk(start, j) in keys
    decreases |keys| - n
  {
    if Walk(start, n) !in keys then Walk(start, n)
    else
      WalkIsShort(start, n + 1, keys);
      FirstFree(start, n + 1, keys)
  }

  lemma {:induction false} FirstFreeSkips(start: int, n: nat, keys: set<int>)
    requires 1 <= start < INT32_MAX && |keys| < IDS && n <= |keys|
    requires forall m | 0 <= m < n :: Walk(start, m) in keys
    ensures FirstFree(start, n, keys) == FirstFree(start, 0, keys)
    decreases n
  {
    if n == 0 {
    } else {
      FirstFreeSkips(start, n - 1, keys);
    }
  }

  /** A free starting id is chosen as it is: the search does not move past it, so an id that is
      released at once is chosen again. */
  lemma FreeStartIsChosen(start: int, keys: set<int>)
    requires 1 <= start < INT32_MAX && |keys| < IDS
    ensures FirstFree(start, 0, keys) == start <==> start !in keys
  {
  }

  // ---------------------------------------------------------------- sweep and sleep

  predicate Due<E>(x: Element<E>, now: int) {
    x.expireTime <= now
  }

  function Unexpired<E>(table: Table<E>, now: int): Table<E> {
    map k | k in table && !Due(table[k], now) :: table[k]
  }

  /** `order` lists the expired elements of the table, each once; the hash map decides the order. */
  ghost predicate Enumerates<E>(order: seq<Element<E>>, table: Table<E>, now: int)
  {
    && (forall i | 0 <= i < |order| ::
          order[i].timerId in table && table[order[i].timerId] == order[i] && Due(order[i], now))
    && (forall i, j | 0 <= i < j < |order| :: order[i].timerId != order[j].timerId)
    && (forall k | k in table && Due(table[k], now) :: table[k] in order)
  }

  function Events<E>(order: seq<Element<E>>): seq<E> {
    seq(|order|, i requires 0 <= i < |order| => order[i].event)
  }

  /** The time the thread sleeps until: the earliest expiry, but at most 2500 ms after `current`. */
  ghost predicate IsDeadline<E>(deadline: int, table: Table<E>, current: int)
  {
    && deadline <= current + 2500
    && (forall k | k in table :: deadline <= table[k].expireTime)
    && (deadline == current + 2500 || exists k :: k in table && deadline == table[k].expireTime)
  }

  lemma SameMap<K, V>(a: map<K, V>, b: map<K, V>)
    requires forall k :: k in a <==> k in b
    requires forall k | k in a :: a[k] == b[k]
    ensures a == b
  {
  }

  class Timer<E> {
    var table: Table<E>
    var expired: seq<Element<E>>
    var nextTimerId: int
    var queueSet: bool
    var queue: seq<E>
    var started: nat

    ghost predicate Valid()
      reads this
    {
      IsTable(table) && 1 <= nextTimerId <= INT32_MAX && expired == []
    }

    constructor ()
      ensures Valid() && table == map[] && queue == [] && !queueSet
    {
      table := map[];
      expired := [];
      nextTimerId := 1;
      queueSet := false;
      queue := [];
      started := 0;
    }

    method SetEventQueue()
      requires Valid()
      modifies this`queueSet
      ensures Valid() && queueSet
    {
      queueSet := true;
    }

    /** The id is the first free one at or after nextTimerId, or -1 when every id is taken. */
    method CreateNewTimerId() returns (id: int)
      requires Valid()
      modifies this`nextTimerId
      ensures Valid()
      ensures id == -1 <==> |table| >= 2_147_483_646
      ensures id != -1 ==>
        var start := if old(nextTimerId) == INT32_MAX then 1 else old(nextTimerId);
        id == nextTimerId == FirstFree(start, 0, table.Keys)
    {
      if |table| >= IDS {
        return -1;
      }
      if nextTimerId == INT32_MAX {
        nextTimerId := 1;
      }
      ghost var start := nextTimerId;
      ghost var n := 0;
      while nextTimerId in table
        invariant 0 <= n <= |table| && nextTimerId == Walk(start, n) && 1 <= nextTimerId < INT32_MAX
        invariant forall m | 0 <= m < n :: Walk(start, m) in table.Keys
        decreases |table| - n
      {
        WalkIsShort(start, n + 1, table.Keys);
        nextTimerId := nextTimerId + 1;
        if nextTimerId == INT32_MAX {
          nextTimerId := 1;
        }
        n := n + 1;
      }
      FirstFreeSkips(start, n, table.Keys);
      return nextTimerId;
    }

    method StartTimer(timeoutMs: nat, event: E, now: int) returns (id: int)
      requires Valid()
      modifies this`nextTimerId, this`table, this`started
      ensures Valid()
      ensures id == -1 <==> !queueSet || |old(table)| >= 2_147_483_646
      ensures id == -1 ==> table == old(table)
      ensures id != -1 ==>
        && id !in old(table)
        && table == old(table)[id := Element(id, now + timeoutMs, event, old(started), now)]
    {
      if !queueSet {
        return -1;
      }
      id := CreateNewTimerId();
      if id == -1 {
        return;
      }
      table := table[id := Element(id, now + timeoutMs, event, started, now)];
      started := started + 1;
    }

    /** True exactly when the timer was live; it and nothing else leaves the table. */
    method StopTimer(timerId: int) returns (ret: bool)
      requires Valid()
      modifies this`table
      ensures Valid()
      ensures ret <==> timerId in old(table)
      ensures table == old(table) - {timerId}
    {
      ret := false;
      if timerId in table {
        table := table - {timerId};
        ret := true;
      }
    }

    /** The locked half of the sweep: expired timers move from the table to the list, each once. */
    method ExtractExpired(now: int)
      requires Valid()
      modifies this`table, this`expired
      ensures IsTable(table)
      ensures Enumerates(expired, old(table), now)
      ensures table == Unexpired(old(table), now)
    {
      var todo: set<int> := table.Keys;
      while todo != {}
        invariant todo <= table.Keys <= old(table).Keys
        invariant forall k | k in table :: table[k] == old(table)[k]
        invariant forall k | k in old(table) :: k !in table ==> Due(old(table)[k], now) && old(table)[k] in expired
        invariant forall k | k in table :: k !in todo ==> !Due(table[k], now)
        invariant forall i | 0 <= i < |expired| ::
          var k := expired[i].timerId;
          k in old(table) && k !in table && old(table)[k] == expired[i] && Due(expired[i], now)
        invariant forall i, j | 0 <= i < j < |expired| :: expired[i].timerId != expired[j].timerId
        decreases |todo|
      {
        var k := Pick(todo);
        todo := todo - {k};
        if table[k].expireTime <= now {
          expired := expired + [table[k]];
          table := table - {k};
        }
      }
      assert forall k | k in table :: k !in todo && !Due(table[k], now);
      assert forall k: int :: k in table <==> k in Unexpired(old(table), now);
      assert forall k: int | k in table :: table[k] == Unexpired(old(table), now)[k];
      SameMap(table, Unexpired(old(table), now));
    }

    /** The unlocked half: the events of the list are pushed in order, and the list is cleared. */
    method PushExpired()
      requires IsTable(table) && 1 <= nextTimerId <= INT32_MAX
      modifies this`expired, this`queue
      ensures Valid()
      ensures queue == old(queue) + if queueSet then Events(old(expired)) else []
    {
      assert Events(expired[..0]) == [];
      var i := 0;
      while i < |expired|
        invariant 0 <= i <= |expired| && expired == old(expired)
        invariant queue == old(queue) + if queueSet then Events(expired[..i]) else []
      {
        if queueSet {
          assert Events(expired[..i + 1]) == Events(expired[..i]) + [expired[i].event];
          queue := queue + [expired[i].event];
        }
        i := i + 1;
      }
      assert expired[..i] == expired;
      expired := [];
    }

    /** Every expired timer leaves the table and its event is pushed once; no other is touched. */
    method ExecuteIfExpired(now: int) returns (ghost order: seq<Element<E>>)
      requires Valid()
      modifies this`table, this`expired, this`queue
      ensures Valid()
      ensures Enumerates(order, old(table), now)
      ensures table == Unexpired(old(table), now)
      ensures queue == old(queue) + if queueSet then Events(order) else []
    {
      ExtractExpired(now);
      order := expired;
      PushExpired();
    }

    /** The minimum search of sleepForNextItem, and the size the wake-up test compares with. */
    method NextSleep(currentTime: int) returns (deadline: int, mapSize: nat)
      requires Valid()
      ensures IsDeadline(deadline, table, currentTime) && mapSize == |table|
    {
      var defaultTimeout := currentTime + INTERNAL_SLEEP_TIMEOUT_MS;
      if table.Keys != {} {
        var todo: set<int> := table.Keys;
        var first := Pick(table.Keys);
        deadline := table[first].expireTime;
        while todo != {}
          invariant todo <= table.Keys
          invariant forall k | k in table.Keys - todo :: deadline <= table[k].expireTime
          invariant exists k :: k in table && deadline == table[k].expireTime
          decreases |todo|
        {
          var k := Pick(todo);
          todo := todo - {k};
          if table[k].expireTime < deadline {
            deadline := table[k].expireTime;
          }
        }
        assert forall k | k in table :: k in table.Keys - todo;
        if deadline > defaultTimeout {
          deadline := defaultTimeout;
        }
      } else {
        deadline := defaultTimeout;
      }
      mapSize := |table|;
    }
  }
}
