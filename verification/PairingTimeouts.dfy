/** The timers behind pairing confirmations: what a timeout proves, and what an answer stops. */
module PairingTimeouts {
  import opened HardwareHandlers
  import opened CommandPipeline
  import opened Pairing
  import T = TimerProtocol
  import Timers

  type Element = Timers.Element<string>

  // ---------------------------------------------------------------- every timer has its confirmation

  /** The element belongs to the confirmation with its instance number. */
  ghost predicate Tagged(s: Pairing.System, x: Element)
  {
    && x.instance < s.timer.started <= |s.starts| && x.instance < |s.ids|
    && x.event == s.starts[x.instance].address && x.timerId == s.ids[x.instance]
    && s.starts[x.instance].at + 30000 <= x.expireTime
  }

  ghost predicate StarterInv(s: Pairing.System)
  {
    && |s.ids| == s.timer.started
    && |s.starts| == s.timer.started + (if s.timer.starter == T.Idle then 0 else 1)
    && (forall i | 0 <= i < |s.starts| :: s.starts[i].at <= s.timer.now)
    && match s.timer.starter
       case Idle => true
       case Chosen(_, ms, address) =>
         ms == 30000 && address == s.starts[s.timer.started].address
       case Made(_, expireTime, address) =>
         && address == s.starts[s.timer.started].address
         && s.starts[s.timer.started].at + 30000 <= expireTime
  }

  ghost predicate TagInv(s: Pairing.System)
  {
    && StarterInv(s)
    && (forall k | k in s.timer.table :: Tagged(s, s.timer.table[k]))
    && (forall j | 0 <= j < |s.timer.expired| :: Tagged(s, s.timer.expired[j]))
    && (forall j | 0 <= j < |s.timer.fired| :: Tagged(s, s.timer.fired[j].element))
  }

  lemma StopFrame(timer: T.System, id: int)
    ensures var t := T.Apply(timer, T.Stop(id));
            && t == timer.(table := t.table, stopped := t.stopped, fate := t.fate)
            && (forall k | k in t.table :: k in timer.table && t.table[k] == timer.table[k])
  {
  }

  lemma ChooseFrame(timer: T.System, timeoutMs: nat, address: string)
    requires timer.starter == T.Idle
    ensures var t := T.Apply(timer, T.Choose(timeoutMs, address));
            && t == timer.(next := t.next, starter := t.starter)
            && (t.starter != T.Idle ==>
                  t.starter.Chosen? && t.starter.timeoutMs == timeoutMs && t.starter.event == address)
  {
  }

  /** Core's MainWorker only touches the table, the starter and the histories. */
  lemma CoreEffect(s: Pairing.System)
    ensures var t := Pairing.Apply(s, Pairing.Action.CoreStep);
            && t.ids == s.ids
            && t.timer == s.timer.(table := t.timer.table, stopped := t.timer.stopped, fate := t.timer.fate,
                                   next := t.timer.next, starter := t.timer.starter)
            && (forall k | k in t.timer.table :: k in s.timer.table && t.timer.table[k] == s.timer.table[k])
            && (|| (t.timer.starter == s.timer.starter && t.starts == s.starts)
                || (s.timer.starter == T.Idle && t.timer.starter.Chosen?
                    && t.timer.starter.timeoutMs == 30000
                    && t.starts == s.starts + [Start(t.timer.starter.event, s.timer.now)]))
  {
    if !CoreBusy(s) {
      match s.pipe.coreQueue[0] {
        case FromClient(what) =>
          if what.address in s.timerIdMap {
            StopFrame(s.timer, s.timerIdMap[what.address]);
          }
        case Confirm(address) => ChooseFrame(s.timer, 30000, address);
        case _ =>
      }
    }
  }

  lemma CoreKeepsStarter(s: Pairing.System)
    requires StarterInv(s)
    ensures StarterInv(Pairing.Apply(s, Pairing.Action.CoreStep))
  {
    CoreEffect(s);
  }

  lemma CoreFrame(s: Pairing.System)
    ensures var t := Pairing.Apply(s, Pairing.Action.CoreStep);
            && t.timer.expired == s.timer.expired && t.timer.fired == s.timer.fired && t.ids == s.ids
            && s.starts <= t.starts && t.timer.started == s.timer.started && t.timer.now == s.timer.now
            && (forall k | k in t.timer.table :: k in s.timer.table && t.timer.table[k] == s.timer.table[k])
  {
    CoreEffect(s);
  }

  lemma CoreKeepsTags(s: Pairing.System)
    requires TagInv(s)
    ensures TagInv(Pairing.Apply(s, Pairing.Action.CoreStep))
  {
    var t := Pairing.Apply(s, Pairing.Action.CoreStep);
    CoreKeepsStarter(s);
    CoreFrame(s);
    assert forall x: Element :: Tagged(s, x) ==> Tagged(t, x);
  }

  lemma StartKeepsTags(s: Pairing.System)
    requires TagInv(s) && T.Inv(s.timer)
    ensures TagInv(Pairing.Apply(s, StartStep))
  {
    var t := Pairing.Apply(s, StartStep);
    assert t.starts == s.starts && s.ids <= t.ids;
    assert t.timer.expired == s.timer.expired && t.timer.fired == s.timer.fired;
    assert forall x: Element :: Tagged(s, x) ==> Tagged(t, x);
    if s.timer.starter.Made? {
      var x := t.timer.table[s.timer.starter.id];
      assert Tagged(t, x);
    }
  }

  lemma ThreadKeepsTags(s: Pairing.System, b: T.Action)
    requires TagInv(s)
    ensures TagInv(Pairing.Apply(s, TimerStep(b)))
  {
    var t := Pairing.Apply(s, TimerStep(b));
    Projections(s, TimerStep(b));
    if OfTimerThread(b) {
      assert t.starts == s.starts && t.ids == s.ids;
      assert t.timer == T.Apply(s.timer, b);
      assert forall x: Element :: Tagged(s, x) ==> Tagged(t, x);
    }
  }

  lemma OthersKeepTags(s: Pairing.System, a: Pairing.Action)
    requires TagInv(s) && a != Pairing.Action.CoreStep && a != StartStep && !a.TimerStep?
    ensures TagInv(Pairing.Apply(s, a))
  {
    var t := Pairing.Apply(s, a);
    assert t.timer == s.timer && t.starts == s.starts && t.ids == s.ids;
  }

  lemma TagsKept(s: Pairing.System, a: Pairing.Action)
    requires TagInv(s) && T.Inv(s.timer)
    ensures TagInv(Pairing.Apply(s, a))
  {
    match a {
      case CoreStep => CoreKeepsTags(s);
      case StartStep => StartKeepsTags(s);
      case TimerStep(b) => ThreadKeepsTags(s, b);
      case _ => OthersKeepTags(s, a);
    }
  }

  // ---------------------------------------------------------------- timeout events, in order

  function TimeoutsIn(q: seq<CoreEvent>): seq<string>
  {
    if q == [] then [] else (if q[0].Timeout? then [q[0].address] else []) + TimeoutsIn(q[1..])
  }

  lemma {:induction false} TimeoutsInConcat(a: seq<CoreEvent>, b: seq<CoreEvent>)
    ensures TimeoutsIn(a + b) == TimeoutsIn(a) + TimeoutsIn(b)
  {
    if a == [] {
      assert a + b == b;
    } else {
      assert (a + b)[1..] == a[1..] + b;
      TimeoutsInConcat(a[1..], b);
      var first := if a[0].Timeout? then [a[0].address] else [];
      assert first + TimeoutsIn(a[1..]) + TimeoutsIn(b) == first + (TimeoutsIn(a[1..]) + TimeoutsIn(b));
    }
  }

  /** The timeout events in core's queue are those of the pushed timers core has not dealt with yet;
      those it has dealt with were pushed before. */
  ghost predicate Aligned(waiting: seq<string>, fired: seq<T.Fired>, out: seq<Start>, now: int)
  {
    && |out| + |waiting| == |fired|
    && (forall j | 0 <= j < |waiting| :: waiting[j] == fired[|out| + j].element.event)
    && (forall j | 0 <= j < |out| :: out[j].address == fired[j].element.event && fired[j].at <= out[j].at)
    && (forall j | 0 <= j < |fired| :: fired[j].at <= now)
  }

  ghost predicate QueueInv(s: Pairing.System) {
    Aligned(TimeoutsIn(s.pipe.coreQueue), s.timer.fired, s.timedOut, s.timer.now)
  }

  lemma AlignedPop(waiting: seq<string>, fired: seq<T.Fired>, out: seq<Start>, now: int)
    requires Aligned(waiting, fired, out, now) && waiting != []
    ensures Aligned(waiting[1..], fired, out + [Start(waiting[0], now)], now)
  {
    forall j | 0 <= j < |waiting[1..]|
      ensures waiting[1..][j] == fired[|out| + 1 + j].element.event
    {
      assert waiting[1..][j] == waiting[j + 1];
    }
  }

  lemma CoreKeepsQueue(s: Pairing.System)
    requires QueueInv(s)
    ensures QueueInv(Pairing.Apply(s, Pairing.Action.CoreStep))
  {
    var t := Pairing.Apply(s, Pairing.Action.CoreStep);
    CoreFrame(s);
    if !CoreBusy(s) {
      var e := s.pipe.coreQueue[0];
      assert t.pipe.coreQueue == s.pipe.coreQueue[1..];
      if e.Timeout? {
        AlignedPop(TimeoutsIn(s.pipe.coreQueue), s.timer.fired, s.timedOut, s.timer.now);
        assert t.timedOut == s.timedOut + [Start(e.address, s.timer.now)];
        assert TimeoutsIn(s.pipe.coreQueue)[1..] == TimeoutsIn(t.pipe.coreQueue);
      } else {
        assert TimeoutsIn(s.pipe.coreQueue) == TimeoutsIn(t.pipe.coreQueue);
        assert t.timedOut == s.timedOut;
      }
    }
  }

  predicate Pushes(s: Pairing.System, b: T.Action) {
    b == T.Push && s.timer.phase.Pushing? && s.timer.expired != []
  }

  lemma PushEffect(s: Pairing.System)
    requires Pushes(s, T.Push)
    ensures var t := Pairing.Apply(s, TimerStep(T.Push));
            && t.timer.fired == s.timer.fired + [T.Fired(s.timer.expired[0], s.timer.now)] && t.timer.now == s.timer.now
            && t.timedOut == s.timedOut && t.pipe.coreQueue == s.pipe.coreQueue + [Timeout(s.timer.expired[0].event)]
  {
  }

  lemma OtherThreadEffect(s: Pairing.System, b: T.Action)
    requires !Pushes(s, b)
    ensures var t := Pairing.Apply(s, TimerStep(b));
            && t.timer.fired == s.timer.fired && t.timer.now >= s.timer.now
            && t.timedOut == s.timedOut && t.pipe == s.pipe
  {
  }

  lemma ThreadKeepsQueue(s: Pairing.System, b: T.Action)
    requires QueueInv(s)
    ensures QueueInv(Pairing.Apply(s, TimerStep(b)))
  {
    if Pushes(s, b) {
      PushEffect(s);
      TimeoutsInConcat(s.pipe.coreQueue, [Timeout(s.timer.expired[0].event)]);
    } else {
      OtherThreadEffect(s, b);
    }
  }

  lemma EnqueueKeeps(s: Pairing.System, t: Pairing.System, es: seq<CoreEvent>)
    requires QueueInv(s) && TimeoutsIn(es) == []
    requires t.timer == s.timer && t.timedOut == s.timedOut && t.pipe.coreQueue == s.pipe.coreQueue + es
    ensures QueueInv(t)
  {
    TimeoutsInConcat(s.pipe.coreQueue, es);
  }

  lemma StartKeepsQueue(s: Pairing.System)
    requires QueueInv(s)
    ensures QueueInv(Pairing.Apply(s, StartStep))
  {
    var t := Pairing.Apply(s, StartStep);
    assert t.timer.fired == s.timer.fired && t.timer.now == s.timer.now;
    assert t.pipe == s.pipe && t.timedOut == s.timedOut;
  }

  lemma QueueKept(s: Pairing.System, a: Pairing.Action)
    requires QueueInv(s)
    ensures QueueInv(Pairing.Apply(s, a))
  {
    var t := Pairing.Apply(s, a);
    match a {
      case ClientSays(m) => EnqueueKeeps(s, t, EventOf(m));
      case NotiArrives => if s.toCore != [] { EnqueueKeeps(s, t, [Confirm(s.toCore[0])]); }
      case OtherEvent => EnqueueKeeps(s, t, [Unrelated]);
      case CoreStep => CoreKeepsQueue(s);
      case StartStep => StartKeepsQueue(s);
      case TimerStep(b) => ThreadKeepsQueue(s, b);
      case _ => assert t.timer == s.timer && t.timedOut == s.timedOut && t.pipe.coreQueue == s.pipe.coreQueue;
    }
  }

  // ---------------------------------------------------------------- counting

  function Confirmations(confirms: seq<string>, address: string): nat
  {
    if confirms == [] then 0
    else Confirmations(confirms[..|confirms| - 1], address) + if confirms[|confirms| - 1] == address then 1 else 0
  }

  function Started(starts: seq<Start>, address: string): nat
  {
    if starts == [] then 0
    else Started(starts[..|starts| - 1], address) + if starts[|starts| - 1].address == address then 1 else 0
  }

  ghost predicate CountInv(s: Pairing.System, address: string) {
    Started(s.starts, address) <= Confirmations(s.confirms, address)
  }

  lemma StartedNext(starts: seq<Start>, x: Start, address: string)
    ensures Started(starts + [x], address) == Started(starts, address) + if x.address == address then 1 else 0
  {
    assert (starts + [x])[..|starts + [x]| - 1] == starts;
  }

  lemma ConfirmationsNext(confirms: seq<string>, x: string, address: string)
    ensures Confirmations(confirms + [x], address) == Confirmations(confirms, address) + if x == address then 1 else 0
  {
    assert (confirms + [x])[..|confirms + [x]| - 1] == confirms;
  }

  lemma ConfirmEffect(s: Pairing.System)
    requires !CoreBusy(s) && s.pipe.coreQueue[0].Confirm?
    ensures var t := Pairing.Apply(s, Pairing.Action.CoreStep);
            var x := s.pipe.coreQueue[0].address;
            && t.confirms == s.confirms + [x]
            && (t.starts == s.starts || t.starts == s.starts + [Start(x, s.timer.now)])
  {
  }

  lemma ConfirmCounts(s: Pairing.System, address: string)
    requires !CoreBusy(s) && s.pipe.coreQueue[0].Confirm? && CountInv(s, address)
    ensures CountInv(Pairing.Apply(s, Pairing.Action.CoreStep), address)
  {
    var x := s.pipe.coreQueue[0].address;
    ConfirmEffect(s);
    ConfirmationsNext(s.confirms, x, address);
    StartedNext(s.starts, Start(x, s.timer.now), address);
  }

  lemma CountKept(s: Pairing.System, a: Pairing.Action, address: string)
    requires CountInv(s, address)
    ensures CountInv(Pairing.Apply(s, a), address)
  {
    if a == Pairing.Action.CoreStep && !CoreBusy(s) && s.pipe.coreQueue[0].Confirm? {
      ConfirmCounts(s, address);
    } else {
      var t := Pairing.Apply(s, a);
      assert t.starts == s.starts && t.confirms == s.confirms;
    }
  }

  lemma {:induction false} SubsetIsSmaller(a: set<nat>, b: set<nat>)
    requires a <= b
    ensures |a| <= |b|
    decreases |a|
  {
    if a == {} {
    } else {
      var x :| x in a;
      SubsetIsSmaller(a - {x}, b - {x});
    }
  }

  function StartsOf(starts: seq<Start>, address: string): set<nat> {
    set i: nat | i < |starts| && starts[i].address == address
  }

  lemma {:induction false} StartsAreCounted(starts: seq<Start>, address: string)
    ensures |StartsOf(starts, address)| == Started(starts, address)
  {
    if starts == [] {
    } else {
      var n := |starts| - 1;
      StartsAreCounted(starts[..n], address);
      if starts[n].address == address {
        assert StartsOf(starts, address) == StartsOf(starts[..n], address) + {n};
      } else {
        assert StartsOf(starts, address) == StartsOf(starts[..n], address);
      }
    }
  }

  /** The instances behind the first `n` pushes for an address. */
  ghost function Behind(fired: seq<T.Fired>, n: nat, address: string): set<nat>
    requires n <= |fired|
  {
    set j: nat | j < n && fired[j].element.event == address :: fired[j].element.instance
  }

  lemma BehindNext(fired: seq<T.Fired>, n: nat, address: string)
    requires 0 < n <= |fired|
    requires forall j, l | 0 <= j < l < |fired| :: fired[j].element.instance != fired[l].element.instance
    ensures var i := fired[n - 1].element.instance;
            && i !in Behind(fired, n - 1, address)
            && Behind(fired, n, address) ==
                 Behind(fired, n - 1, address) + if fired[n - 1].element.event == address then {i} else {}
  {
    var more := if fired[n - 1].element.event == address then {fired[n - 1].element.instance} else {};
    forall i: nat
      ensures i in Behind(fired, n, address) <==> i in Behind(fired, n - 1, address) + more
    {
      if i in Behind(fired, n, address) {
        var j: nat :| j < n && fired[j].element.event == address && fired[j].element.instance == i;
        assert j < n - 1 || i in more;
      }
    }
  }

  lemma {:induction false} BehindAreCounted(fired: seq<T.Fired>, out: seq<Start>, n: nat, address: string)
    requires n <= |fired| && n <= |out|
    requires forall j | 0 <= j < n :: out[j].address == fired[j].element.event
    requires forall j, l | 0 <= j < l < |fired| :: fired[j].element.instance != fired[l].element.instance
    ensures |Behind(fired, n, address)| == Started(out[..n], address)
    decreases n
  {
    if n > 0 {
      BehindAreCounted(fired, out, n - 1, address);
      assert out[..n][..n - 1] == out[..n - 1];
      BehindNext(fired, n, address);
    } else {
      assert Behind(fired, n, address) == {};
    }
  }

  // ---------------------------------------------------------------- all runs

  lemma {:induction false} RunKeeps(actions: seq<Pairing.Action>, address: string)
    ensures var s := Pairing.Run(actions);
            T.Inv(s.timer) && TagInv(s) && QueueInv(s) && CountInv(s, address)
    decreases |actions|
  {
    if actions == [] {
    } else {
      var before := actions[..|actions| - 1];
      var a := actions[|actions| - 1];
      RunKeeps(before, address);
      TimerKept(actions);
      TagsKept(Pairing.Run(before), a);
      QueueKept(Pairing.Run(before), a);
      CountKept(Pairing.Run(before), a, address);
    }
  }

  lemma TimerKept(actions: seq<Pairing.Action>)
    ensures T.Inv(Pairing.Run(actions).timer)
  {
    RunKeepsParts(actions);
  }

  /** Every timeout rejection core sends is for a confirmation of the same device that core handled at
      least 30000 ms earlier, and no two are for the same confirmation. */
  lemma TimeoutsAreLate(actions: seq<Pairing.Action>)
    ensures var s := Pairing.Run(actions);
            && |s.timedOut| <= |s.timer.fired|
            && (forall j | 0 <= j < |s.timedOut| ::
                  var i := s.timer.fired[j].element.instance;
                  && i < |s.starts| && s.starts[i].address == s.timedOut[j].address
                  && s.starts[i].at + 30000 <= s.timedOut[j].at)
            && (forall j, l | 0 <= j < l < |s.timedOut| ::
                  s.timer.fired[j].element.instance != s.timer.fired[l].element.instance)
  {
    RunKeeps(actions, "");
    var s := Pairing.Run(actions);
    assert forall j | 0 <= j < |s.timer.fired| :: Tagged(s, s.timer.fired[j].element);
  }

  /** For every device the timeout rejections sent are at most the confirmation notifications core
      handled for it. */
  lemma TimeoutsAreFew(actions: seq<Pairing.Action>, address: string)
    ensures var s := Pairing.Run(actions);
            Started(s.timedOut, address) <= Confirmations(s.confirms, address)
  {
    var s := Pairing.Run(actions);
    RunKeeps(actions, address);
    var n := |s.timedOut|;
    BehindAreCounted(s.timer.fired, s.timedOut, n, address);
    assert s.timedOut[..n] == s.timedOut;
    forall i | i in Behind(s.timer.fired, n, address)
      ensures i in StartsOf(s.starts, address)
    {
      var j: nat :| j < n && s.timer.fired[j].element.event == address && s.timer.fired[j].element.instance == i;
      assert Tagged(s, s.timer.fired[j].element);
    }
    SubsetIsSmaller(Behind(s.timer.fired, n, address), StartsOf(s.starts, address));
    StartsAreCounted(s.starts, address);
  }
}
