/** Which pending requests the managers answer by themselves, by the timeout if no client does: exactly
 * those of which something is still under way. */
module PairingCovered {
  import opened Wrappers
  import opened Wire
  import opened CommandPipeline
  import opened Pairing
  import A = BluetoothAgents
  import T = TimerProtocol
  import Timers
  import D = TimerDrains
  import G = PairingProgress
  import N = PairingAnswers

  /** A step of the managers' own threads, or of time: no client, no BlueZ. */
  predicate ManagerStep(a: Pairing.Action) {
    || a == StartStep || a == NotiArrives || a.TimerStep?
    || a == Pairing.Action.CoreStep || a == Pairing.Action.Transmit || a == Pairing.Action.HwStep
  }

  predicate Managers(actions: seq<Pairing.Action>) {
    forall i | 0 <= i < |actions| :: ManagerStep(actions[i])
  }

  // ---------------------------------------------------------------- what is under way about a device

  /** The text names the device once it has crossed the channel. */
  predicate About(text: string, address: string) {
    CStr(text) == address
  }

  /** The operations between core's queue and the agent. */
  function Under(p: CommandPipeline.System): seq<DeviceOp> {
    p.hwQueue + InChannel(p.channel) + Seen(InCore(p.coreQueue))
  }

  predicate IsAnswer(what: DeviceOp, address: string) {
    (what.op == ACCEPT || what.op == REJECT) && what.address == address
  }

  predicate Answering(whats: seq<DeviceOp>, address: string) {
    exists i :: 0 <= i < |whats| && IsAnswer(whats[i], address)
  }

  /** The confirmation notification has not been handled. */
  predicate Announced(s: Pairing.System, address: string) {
    || (exists i :: 0 <= i < |s.toCore| && About(s.toCore[i], address))
    || Confirming(s.pipe.coreQueue, address)
  }

  predicate Confirming(q: seq<CoreEvent>, address: string) {
    exists i :: 0 <= i < |q| && q[i].Confirm? && About(q[i].address, address)
  }

  /** A timer for the device is being started, runs, or has expired and is about to be pushed. */
  ghost predicate Timed(t: T.System, address: string)
  {
    || (t.starter != T.Idle && About(t.starter.event, address))
    || (exists k :: k in t.table && About(t.table[k].event, address))
    || (exists i :: 0 <= i < |t.expired| && About(t.expired[i].event, address))
  }

  ghost predicate Covered(s: Pairing.System, address: string) {
    Announced(s, address) || Timed(s.timer, address) || Answering(Under(s.pipe), address)
  }

  // ---------------------------------------------------------------- the operations under way

  lemma AnsweringConcat(a: seq<DeviceOp>, b: seq<DeviceOp>, address: string)
    ensures Answering(a + b, address) <==> Answering(a, address) || Answering(b, address)
  {
    if Answering(a, address) {
      var i :| 0 <= i < |a| && IsAnswer(a[i], address);
      assert IsAnswer((a + b)[i], address);
    }
    if Answering(b, address) {
      var i :| 0 <= i < |b| && IsAnswer(b[i], address);
      assert IsAnswer((a + b)[|a| + i], address);
    }
    if Answering(a + b, address) {
      var i :| 0 <= i < |a + b| && IsAnswer((a + b)[i], address);
      assert if i < |a| then IsAnswer(a[i], address) else IsAnswer(b[i - |a|], address);
    }
  }

  lemma UnderGrows(p: CommandPipeline.System, es: seq<CoreEvent>, address: string)
    ensures Answering(Under(p.(coreQueue := p.coreQueue + es)), address) <==>
            Answering(Under(p), address) || Answering(Seen(InCore(es)), address)
  {
    InCoreConcat(p.coreQueue, es);
    SeenConcat(InCore(p.coreQueue), InCore(es));
    var front := p.hwQueue + InChannel(p.channel);
    AnsweringConcat(front, Seen(InCore(p.coreQueue)), address);
    AnsweringConcat(Seen(InCore(p.coreQueue)), Seen(InCore(es)), address);
    AnsweringConcat(front, Seen(InCore(p.coreQueue + es)), address);
  }

  lemma UnderIsPipeline(p: CommandPipeline.System)
    ensures Pipeline(p) == p.executed + Under(p)
  {
  }

  lemma SameUnder(p: CommandPipeline.System, q: CommandPipeline.System)
    requires Pipeline(p) == Pipeline(q) && p.executed == q.executed
    ensures Under(p) == Under(q)
  {
    UnderIsPipeline(p);
    UnderIsPipeline(q);
    assert Under(p) == Pipeline(p)[|p.executed|..];
    assert Under(q) == Pipeline(q)[|q.executed|..];
  }

  /** The core's step and the channel move operations and lose none. */
  lemma CarriedOn(p: CommandPipeline.System, b: CommandPipeline.Action)
    requires b == CommandPipeline.CoreStep || b == CommandPipeline.Transmit
    ensures Under(CommandPipeline.Apply(p, b)) == Under(p)
  {
    if b == CommandPipeline.CoreStep && p.coreQueue != [] {
      CoreStepKeeps(p);
      SameUnder(p, CommandPipeline.Apply(p, b));
    } else if b == CommandPipeline.Transmit && p.channel != [] {
      TransmitKeeps(p);
      SameUnder(p, CommandPipeline.Apply(p, b));
    }
  }

  lemma HwTakesOne(p: CommandPipeline.System, address: string)
    requires p.hwQueue != []
    ensures var q := CommandPipeline.Apply(p, CommandPipeline.HwStep);
            Answering(Under(p), address) <==> Answering(Under(q), address) || IsAnswer(p.hwQueue[0], address)
  {
    var q := CommandPipeline.Apply(p, CommandPipeline.HwStep);
    assert Under(p) == [p.hwQueue[0]] + Under(q);
    AnsweringConcat([p.hwQueue[0]], Under(q), address);
    assert Answering([p.hwQueue[0]], address) <==> IsAnswer(p.hwQueue[0], address) by {
      assert [p.hwQueue[0]][0] == p.hwQueue[0];
    }
  }

  // ---------------------------------------------------------------- the timers

  lemma StartKeepsTimed(t: T.System, address: string)
    requires T.Inv(t)
    ensures Timed(T.Apply(t, T.Stamp), address) <==> Timed(t, address)
    ensures t.starter.Made? ==> (Timed(T.Apply(t, T.Put), address) <==> Timed(t, address))
  {
    if t.starter.Made? {
      var u := T.Apply(t, T.Put);
      var id := t.starter.id;
      assert id !in t.table && u.table == t.table[id := u.table[id]] && u.table[id].event == t.starter.event;
      assert forall k | k in t.table :: u.table[k] == t.table[k];
      if Timed(t, address) && !About(t.starter.event, address) {
        assert u.expired == t.expired;
      }
    }
  }

  lemma ExtractKeepsTimed(t: T.System, order: seq<Timers.Element<T.Event>>, address: string)
    requires T.Inv(t)
    ensures Timed(T.Apply(t, T.Extract(order)), address) <==> Timed(t, address)
  {
    var u := T.Apply(t, T.Extract(order));
    if t.phase.Sweeping? && Timers.Enumerates(order, t.table, t.phase.time) {
      assert t.expired == [];
      if k :| k in t.table && About(t.table[k].event, address) {
        if Timers.Due(t.table[k], t.phase.time) {
          var i :| 0 <= i < |order| && order[i] == t.table[k];
          assert About(u.expired[i].event, address);
        } else {
          assert k in u.table && About(u.table[k].event, address);
        }
      }
      if i :| 0 <= i < |u.expired| && About(u.expired[i].event, address) {
        assert About(t.table[order[i].timerId].event, address);
      }
    } else {
      assert u == t;
    }
  }

  lemma PushMovesTimed(t: T.System, address: string)
    requires T.Inv(t) && t.phase.Pushing? && t.expired != []
    ensures Timed(t, address) <==> Timed(T.Apply(t, T.Push), address) || About(t.expired[0].event, address)
  {
    var u := T.Apply(t, T.Push);
    assert u.table == t.table && u.starter == t.starter && u.expired == t.expired[1..];
    if i :| 0 <= i < |t.expired| && About(t.expired[i].event, address) {
      assert i > 0 ==> About(u.expired[i - 1].event, address);
    }
    if i :| 0 <= i < |u.expired| && About(u.expired[i].event, address) {
      assert About(t.expired[i + 1].event, address);
    }
  }

  lemma ThreadKeepsTimed(t: T.System, b: T.Action, address: string)
    requires T.Inv(t) && OfTimerThread(b)
    requires !(b == T.Push && t.phase.Pushing? && t.expired != [])
    ensures Timed(T.Apply(t, b), address) <==> Timed(t, address)
  {
    if b.Extract? {
      ExtractKeepsTimed(t, b.order, address);
    } else {
      var u := T.Apply(t, b);
      assert u.table == t.table && u.starter == t.starter && u.expired == t.expired;
    }
  }

  // ---------------------------------------------------------------- every step

  lemma ConfirmingHead(q: seq<CoreEvent>, address: string)
    requires q != []
    ensures Confirming(q, address) <==> (q[0].Confirm? && About(q[0].address, address)) || Confirming(q[1..], address)
  {
    if i :| 0 <= i < |q| && q[i].Confirm? && About(q[i].address, address) {
      assert i > 0 ==> q[1..][i - 1].Confirm? && About(q[1..][i - 1].address, address);
    }
    if i :| 0 <= i < |q[1..]| && q[1..][i].Confirm? && About(q[1..][i].address, address) {
      assert q[i + 1].Confirm? && About(q[i + 1].address, address);
    }
  }

  lemma ConfirmingLast(q: seq<CoreEvent>, e: CoreEvent, address: string)
    ensures Confirming(q + [e], address) <==> Confirming(q, address) || (e.Confirm? && About(e.address, address))
  {
    if i :| 0 <= i < |q| && q[i].Confirm? && About(q[i].address, address) {
      assert (q + [e])[i].Confirm? && About((q + [e])[i].address, address);
    }
    if e.Confirm? && About(e.address, address) {
      assert (q + [e])[|q|].Confirm? && About((q + [e])[|q|].address, address);
    }
  }

  /** One more event in core's queue. */
  lemma Queued(p: CommandPipeline.System, e: CoreEvent, address: string)
    requires !e.FromClient?
    ensures var q := CommandPipeline.Apply(p, Enqueue(e));
            && (Confirming(q.coreQueue, address) <==>
                  Confirming(p.coreQueue, address) || (e.Confirm? && About(e.address, address)))
            && (Answering(Under(q), address) <==>
                  Answering(Under(p), address) || (e.Timeout? && About(e.address, address)))
  {
    ConfirmingLast(p.coreQueue, e, address);
    UnderGrows(p, [e], address);
    assert Under(CommandPipeline.Apply(p, Enqueue(e))) == Under(p.(coreQueue := p.coreQueue + [e]));
    assert InCore([e]) == Handled(e);
    if e.Timeout? {
      assert Seen(Handled(e)) == [DeviceOp(REJECT, CStr(e.address))];
      assert Seen(Handled(e))[0].op == REJECT;
    }
  }

  /** The two ways in which the managers lose a pending request: its confirmation meets a full timer table,
      or the answer for another device stops its timer. */
  ghost predicate Forgets(s: Pairing.System, a: Pairing.Action, address: string)
  {
    a == Pairing.Action.CoreStep && !CoreBusy(s) &&
    match s.pipe.coreQueue[0]
    case Confirm(x) => About(x, address) && |s.timer.table.Keys| >= Timers.IDS
    case FromClient(what) => !About(what.address, address) && Stops(s, what, address)
    case _ => false
  }

  /** Handling the client's answer stops a timer of `address`. */
  ghost predicate Stops(s: Pairing.System, what: DeviceOp, address: string)
  {
    && (what.op == ACCEPT || what.op == REJECT) && what.address in s.timerIdMap
    && var id := s.timerIdMap[what.address];
       id in s.timer.table && About(s.timer.table[id].event, address)
  }

  /** Hardwaremgr hands an answer for the device to the agent. */
  predicate Delivers(s: Pairing.System, a: Pairing.Action, address: string) {
    a == Pairing.Action.HwStep && s.pipe.hwQueue != [] && IsAnswer(s.pipe.hwQueue[0], address)
  }

  lemma ConfirmHandled(s: Pairing.System, x: string, address: string)
    requires T.Inv(s.timer) && !CoreBusy(s) && s.pipe.coreQueue[0] == Confirm(x)
    ensures var t := Pairing.Apply(s, Pairing.Action.CoreStep);
            && (Timed(t.timer, address) ==> Timed(s.timer, address) || About(x, address))
            && (Timed(s.timer, address) ==> Timed(t.timer, address))
            && (About(x, address) && |s.timer.table.Keys| < Timers.IDS ==> Timed(t.timer, address))
  {
    var t := Pairing.Apply(s, Pairing.Action.CoreStep);
    assert t.timer.table == s.timer.table && t.timer.expired == s.timer.expired;
  }

  lemma StopHandled(s: Pairing.System, what: DeviceOp, address: string)
    requires T.Inv(s.timer) && !CoreBusy(s) && s.pipe.coreQueue[0] == FromClient(what)
    ensures var t := Pairing.Apply(s, Pairing.Action.CoreStep);
            && (Timed(t.timer, address) ==> Timed(s.timer, address))
            && (Timed(s.timer, address) ==> Timed(t.timer, address) || Stops(s, what, address))
  {
    var t := Pairing.Apply(s, Pairing.Action.CoreStep);
    assert t.timer.starter == s.timer.starter && t.timer.expired == s.timer.expired;
    if k :| k in s.timer.table && About(s.timer.table[k].event, address) {
      assert !Stops(s, what, address) ==> k in t.timer.table && t.timer.table[k] == s.timer.table[k];
    }
  }

  /** A client's answer about the device is under way as soon as it is in core's queue. */
  lemma AnswerIsUnder(p: CommandPipeline.System, what: DeviceOp, address: string)
    requires p.coreQueue != [] && p.coreQueue[0] == FromClient(what)
    requires (what.op == ACCEPT || what.op == REJECT) && About(what.address, address)
    ensures Answering(Under(p), address)
  {
    assert InCore(p.coreQueue)[0] == what;
    assert IsAnswer(Seen(InCore(p.coreQueue))[0], address);
    AnsweringConcat(p.hwQueue + InChannel(p.channel), Seen(InCore(p.coreQueue)), address);
  }

  lemma CoreStepMoves(s: Pairing.System, address: string)
    requires T.Inv(s.timer)
    ensures var t := Pairing.Apply(s, Pairing.Action.CoreStep);
            && (Covered(t, address) ==> Covered(s, address))
            && (Covered(s, address) && !Forgets(s, Pairing.Action.CoreStep, address) ==> Covered(t, address))
  {
    if !CoreBusy(s) {
      var t := Pairing.Apply(s, Pairing.Action.CoreStep);
      CarriedOn(s.pipe, CommandPipeline.CoreStep);
      ConfirmingHead(s.pipe.coreQueue, address);
      assert t.toCore == s.toCore && Under(t.pipe) == Under(s.pipe) && t.pipe.coreQueue == s.pipe.coreQueue[1..];
      match s.pipe.coreQueue[0] {
        case Confirm(x) => ConfirmHandled(s, x, address);
        case FromClient(what) =>
          StopHandled(s, what, address);
          if Stops(s, what, address) && About(what.address, address) {
            AnswerIsUnder(s.pipe, what, address);
          }
        case _ => assert t.timer == s.timer;
      }
    }
  }

  lemma TimerStepMoves(s: Pairing.System, b: T.Action, address: string)
    requires T.Inv(s.timer)
    ensures Covered(Pairing.Apply(s, TimerStep(b)), address) <==> Covered(s, address)
  {
    var t := Pairing.Apply(s, TimerStep(b));
    if OfTimerThread(b) {
      if b == T.Push && s.timer.phase.Pushing? && s.timer.expired != [] {
        PushMovesTimed(s.timer, address);
        Queued(s.pipe, Timeout(s.timer.expired[0].event), address);
        assert t.toCore == s.toCore;
      } else {
        ThreadKeepsTimed(s.timer, b, address);
        assert t.toCore == s.toCore && t.pipe == s.pipe;
      }
    }
  }

  lemma NotiMoves(s: Pairing.System, address: string)
    ensures Covered(Pairing.Apply(s, NotiArrives), address) <==> Covered(s, address)
  {
    if s.toCore != [] {
      var t := Pairing.Apply(s, NotiArrives);
      Queued(s.pipe, Confirm(s.toCore[0]), address);
      if i :| 0 <= i < |s.toCore| && About(s.toCore[i], address) {
        assert i > 0 ==> About(t.toCore[i - 1], address);
      }
      if i :| 0 <= i < |t.toCore| && About(t.toCore[i], address) {
        assert About(s.toCore[i + 1], address);
      }
    }
  }

  lemma StartMoves(s: Pairing.System, address: string)
    requires T.Inv(s.timer)
    ensures Covered(Pairing.Apply(s, StartStep), address) <==> Covered(s, address)
  {
    var t := Pairing.Apply(s, StartStep);
    StartKeepsTimed(s.timer, address);
    assert t.pipe == s.pipe && t.toCore == s.toCore;
  }

  lemma PipeMoves(s: Pairing.System, a: Pairing.Action, address: string)
    requires a == Pairing.Action.Transmit || a == Pairing.Action.HwStep
    ensures Covered(Pairing.Apply(s, a), address) ==> Covered(s, address)
    ensures Covered(s, address) && !Delivers(s, a, address) ==> Covered(Pairing.Apply(s, a), address)
  {
    var t := Pairing.Apply(s, a);
    assert t.timer == s.timer && t.toCore == s.toCore && t.pipe.coreQueue == s.pipe.coreQueue;
    if a == Pairing.Action.Transmit {
      CarriedOn(s.pipe, CommandPipeline.Transmit);
    } else if s.pipe.hwQueue != [] {
      HwTakesOne(s.pipe, address);
    }
  }

  /** A step of the managers makes nothing out of nothing, and loses a request only as Forgets says. */
  lemma CoverMoves(s: Pairing.System, a: Pairing.Action, address: string)
    requires T.Inv(s.timer) && ManagerStep(a)
    ensures Covered(Pairing.Apply(s, a), address) ==> Covered(s, address)
    ensures Covered(s, address) && !Delivers(s, a, address) && !Forgets(s, a, address) ==>
              Covered(Pairing.Apply(s, a), address)
  {
    match a {
      case StartStep => StartMoves(s, address);
      case TimerStep(b) => TimerStepMoves(s, b, address);
      case NotiArrives => NotiMoves(s, address);
      case CoreStep => CoreStepMoves(s, address);
      case _ => PipeMoves(s, a, address);
    }
  }

  // ---------------------------------------------------------------- the managers can come to rest

  predicate Quiet(s: Pairing.System) {
    s.toCore == [] && D.Empty(s.timer) && G.Drained(s)
  }

  lemma QuietIsUncovered(s: Pairing.System, address: string)
    requires Quiet(s)
    ensures !Covered(s, address)
  {
    assert Under(s.pipe) == [];
  }

  function ConfirmsIn(q: seq<CoreEvent>): nat
  {
    if q == [] then 0 else One(q[0].Confirm?) + ConfirmsIn(q[1..])
  }

  lemma {:induction false} ConfirmsInConcat(a: seq<CoreEvent>, b: seq<CoreEvent>)
    ensures ConfirmsIn(a + b) == ConfirmsIn(a) + ConfirmsIn(b)
  {
    if a == [] {
      assert a + b == b;
    } else {
      assert (a + b)[1..] == a[1..] + b;
      ConfirmsInConcat(a[1..], b);
    }
  }

  /** Confirmations that have not become timers. */
  function Confirms(s: Pairing.System): nat {
    4 * |s.toCore| + 3 * ConfirmsIn(s.pipe.coreQueue) + G.Starting(s.timer.starter)
  }

  /** Nearer to rest: fewer confirmations; else a nearer timer thread; else less to carry. */
  ghost predicate Lower(s: Pairing.System, t: Pairing.System)
  {
    || Confirms(t) < Confirms(s)
    || (Confirms(t) == Confirms(s) && D.Nearer(s.timer, t.timer))
    || (Confirms(t) == Confirms(s) && t.timer == s.timer && G.Work(t) < G.Work(s))
  }

  lemma NotiLowers(s: Pairing.System)
    requires s.toCore != []
    ensures Lower(s, Pairing.Apply(s, NotiArrives))
  {
    var e := Confirm(s.toCore[0]);
    ConfirmsInConcat(s.pipe.coreQueue, [e]);
    assert ConfirmsIn([e]) == 1 + ConfirmsIn([e][1..]);
    assert Pairing.Apply(s, NotiArrives).pipe.coreQueue == s.pipe.coreQueue + [e];
  }

  lemma TimerLowers(s: Pairing.System, b: T.Action)
    requires OfTimerThread(b) && T.Apply(s.timer, b).starter == s.timer.starter
    requires D.Nearer(s.timer, T.Apply(s.timer, b))
    ensures Lower(s, Pairing.Apply(s, TimerStep(b)))
  {
    var t := Pairing.Apply(s, TimerStep(b));
    if b == T.Push && s.timer.phase.Pushing? && s.timer.expired != [] {
      var e := Timeout(s.timer.expired[0].event);
      ConfirmsInConcat(s.pipe.coreQueue, [e]);
      assert ConfirmsIn([e]) == 0;
      assert t.pipe.coreQueue == s.pipe.coreQueue + [e];
    }
  }

  lemma CarryLowers(s: Pairing.System)
    requires s.timer.starter == T.Idle && D.Empty(s.timer) && !G.Drained(s)
    ensures Lower(s, Pairing.Apply(s, G.Next(s)))
  {
    G.NextWorks(s);
    var t := Pairing.Apply(s, G.Next(s));
    assert t.toCore == s.toCore;
    if s.pipe.coreQueue != [] {
      assert t.pipe.coreQueue == s.pipe.coreQueue[1..];
      assert !s.pipe.coreQueue[0].Confirm? ==> t.timer == s.timer;
    } else {
      assert t.pipe.coreQueue == s.pipe.coreQueue && t.timer == s.timer;
    }
  }

  lemma StartLowers(s: Pairing.System)
    requires s.timer.starter != T.Idle
    ensures Lower(s, Pairing.Apply(s, StartStep))
  {
    assert Pairing.Apply(s, StartStep).pipe == s.pipe;
  }

  /** Until it rests, the system has a step that brings it nearer and forgets no request: the timers go
      before the next confirmation. */
  lemma NextStep(s: Pairing.System) returns (a: Pairing.Action)
    requires T.Inv(s.timer) && !Quiet(s)
    ensures ManagerStep(a) && Lower(s, Pairing.Apply(s, a))
    ensures forall address :: !Forgets(s, a, address)
  {
    if s.timer.starter != T.Idle {
      StartLowers(s);
      a := StartStep;
    } else if s.toCore != [] {
      NotiLowers(s);
      a := NotiArrives;
    } else if !D.Empty(s.timer) {
      var b := D.NextStep(s.timer);
      TimerLowers(s, b);
      a := TimerStep(b);
    } else {
      CarryLowers(s);
      a := G.Next(s);
      assert s.timer.table.Keys == {};
    }
  }

  lemma TimerKept(s: Pairing.System, a: Pairing.Action)
    requires T.Inv(s.timer)
    ensures T.Inv(Pairing.Apply(s, a).timer)
  {
    Projections(s, a);
    if TimerAction(s, a).Some? {
      T.StepKeepsInv(s.timer, TimerAction(s, a).value);
    }
  }

  // ---------------------------------------------------------------- answered

  /** The agent has replied to request `r` since `s`. */
  predicate RepliedSince(s: A.Agent, t: A.Agent, r: nat) {
    s.replies <= t.replies && exists i :: |s.replies| <= i < |t.replies| && t.replies[i].request == r
  }

  predicate StillPending(s: A.Agent, address: string, r: nat) {
    address in s.pending && s.pending[address] == r
  }

  /** Only an answer for the device that hardwaremgr delivers ends its request, and that is a reply to it. */
  lemma AgentMoves(s: Pairing.System, a: Pairing.Action, address: string, r: nat)
    requires ManagerStep(a) && StillPending(s.agent, address, r)
    ensures var t := Pairing.Apply(s, a);
            && s.agent.replies <= t.agent.replies
            && if Delivers(s, a, address) then RepliedSince(s.agent, t.agent, r) && address !in t.agent.pending
               else StillPending(t.agent, address, r)
  {
    Projections(s, a);
    var t := Pairing.Apply(s, a);
    if Delivers(s, a, address) {
      assert t.agent.replies[|s.agent.replies|].request == r;
    }
  }

  lemma RepliedSooner(s: A.Agent, t: A.Agent, u: A.Agent, r: nat)
    requires s.replies <= t.replies && RepliedSince(t, u, r)
    ensures RepliedSince(s, u, r)
  {
  }

  lemma NextFor(s: Pairing.System, address: string) returns (a: Pairing.Action)
    requires T.Inv(s.timer) && Covered(s, address)
    ensures ManagerStep(a) && Lower(s, Pairing.Apply(s, a)) && !Forgets(s, a, address)
  {
    if Quiet(s) {
      QuietIsUncovered(s, address);
      assert false;
    }
    a := NextStep(s);
  }

  /** After a step that forgets nothing the request has its reply, or is pending and covered. */
  lemma AnswerNearer(s: Pairing.System, a: Pairing.Action, address: string, r: nat)
    requires T.Inv(s.timer) && StillPending(s.agent, address, r) && Covered(s, address)
    requires ManagerStep(a) && !Forgets(s, a, address)
    ensures var t := Pairing.Apply(s, a);
            && T.Inv(t.timer) && s.agent.replies <= t.agent.replies
            && if Delivers(s, a, address) then RepliedSince(s.agent, t.agent, r) && address !in t.agent.pending
               else StillPending(t.agent, address, r) && Covered(t, address)
  {
    TimerKept(s, a);
    CoverMoves(s, a, address);
    AgentMoves(s, a, address, r);
  }

  /** The steps of NextStep, to the end: what was covered has been answered. */
  lemma {:induction false} CanBeAnswered(s: Pairing.System, address: string, r: nat)
    returns (actions: seq<Pairing.Action>)
    requires T.Inv(s.timer) && StillPending(s.agent, address, r) && Covered(s, address)
    ensures Managers(actions) && RepliedSince(s.agent, G.Continue(s, actions).agent, r)
    ensures address !in G.Continue(s, actions).agent.pending
    decreases Confirms(s), |s.timer.table.Keys|, D.Stage(s.timer), |s.timer.expired|, G.Work(s)
  {
    var a := NextFor(s, address);
    var t := Pairing.Apply(s, a);
    AnswerNearer(s, a, address, r);
    var rest := [];
    if !Delivers(s, a, address) {
      rest := CanBeAnswered(t, address, r);
      RepliedSooner(s.agent, t.agent, G.Continue(t, rest).agent, r);
    }
    G.ContinueFirst(s, a, rest);
    actions := [a] + rest;
  }

  lemma UncoveredDelivers(s: Pairing.System, a: Pairing.Action, address: string)
    requires !Covered(s, address)
    ensures !Delivers(s, a, address)
  {
    if s.pipe.hwQueue != [] {
      HwTakesOne(s.pipe, address);
    }
  }

  /** A request of which nothing is under way stays unanswered, whatever the managers do. */
  lemma {:induction false} UncoveredStays(s: Pairing.System, address: string, r: nat, actions: seq<Pairing.Action>)
    requires T.Inv(s.timer) && StillPending(s.agent, address, r) && !Covered(s, address) && Managers(actions)
    ensures var t := G.Continue(s, actions);
            T.Inv(t.timer) && StillPending(t.agent, address, r) && !Covered(t, address)
    decreases |actions|
  {
    if actions == [] {
    } else {
      var m := |actions| - 1;
      UncoveredStays(s, address, r, actions[..m]);
      var t := G.Continue(s, actions[..m]);
      UncoveredDelivers(t, actions[m], address);
      TimerKept(t, actions[m]);
      CoverMoves(t, actions[m], address);
      AgentMoves(t, actions[m], address, r);
    }
  }

  ghost predicate Answers(s: Pairing.System, address: string, actions: seq<Pairing.Action>)
    requires address in s.agent.pending
  {
    && Managers(actions) && address !in G.Continue(s, actions).agent.pending
    && RepliedSince(s.agent, G.Continue(s, actions).agent, s.agent.pending[address])
  }

  /** In every run, the managers alone can answer a pending request if and only if something about its
      device is under way: its notification, its timer, or an answer; without them it waits for a client
      or for BlueZ. */
  lemma AnsweredIffCovered(run: seq<Pairing.Action>, address: string)
    requires address in Pairing.Run(run).agent.pending
    ensures var s := Pairing.Run(run);
            (exists actions :: Answers(s, address, actions)) <==> Covered(s, address)
  {
    var s := Pairing.Run(run);
    RunKeepsParts(run);
    var r := s.agent.pending[address];
    if Covered(s, address) {
      var actions := CanBeAnswered(s, address, r);
      assert Answers(s, address, actions);
    }
    if actions :| Answers(s, address, actions) {
      if !Covered(s, address) {
        UncoveredStays(s, address, r, actions);
        assert false;
      }
    }
  }

  // ---------------------------------------------------------------- which requests stay covered

  lemma SaysKeeps(s: Pairing.System, m: ClientMessage, address: string)
    requires Covered(s, address)
    ensures Covered(Pairing.Apply(s, Pairing.Action.ClientSays(m)), address)
  {
    var t := Pairing.Apply(s, Pairing.Action.ClientSays(m));
    UnderGrows(s.pipe, EventOf(m), address);
    assert Under(t.pipe) == Under(s.pipe.(coreQueue := s.pipe.coreQueue + EventOf(m)));
    if EventOf(m) != [] {
      ConfirmingLast(s.pipe.coreQueue, EventOf(m)[0], address);
      assert EventOf(m) == [EventOf(m)[0]];
    } else {
      assert s.pipe.coreQueue + [] == s.pipe.coreQueue;
    }
    assert t.timer == s.timer && t.toCore == s.toCore;
  }

  lemma CallKeeps(s: Pairing.System, path: Option<string>, address: string)
    requires NulFree(address) && address != ""
    requires Covered(s, address) || A.AddressOf(path) == address
    ensures Covered(Pairing.Apply(s, BluezCalls(path)), address)
  {
    var t := Pairing.Apply(s, BluezCalls(path));
    if A.AddressOf(path) == address {
      assert About(t.toCore[|s.toCore|], address);
    } else {
      if i :| 0 <= i < |s.toCore| && About(s.toCore[i], address) {
        assert About(t.toCore[i], address);
      }
      assert t.timer == s.timer && t.pipe == s.pipe;
    }
  }

  predicate Pending(s: Pairing.System, address: string) {
    address in s.agent.pending
  }

  lemma DeliveryEnds(s: Pairing.System, a: Pairing.Action, address: string)
    requires Delivers(s, a, address)
    ensures !Pending(Pairing.Apply(s, a), address)
  {
    Projections(s, a);
  }

  lemma PendingWas(s: Pairing.System, a: Pairing.Action, address: string)
    requires Pending(Pairing.Apply(s, a), address)
    ensures Pending(s, address) || (a.BluezCalls? && A.AddressOf(a.path) == address && address != "")
  {
    Projections(s, a);
  }

  lemma StepKeepsCovered(s: Pairing.System, a: Pairing.Action, address: string)
    requires T.Inv(s.timer) && NulFree(address) && address != "" && !Forgets(s, a, address)
    requires Pending(s, address) ==> Covered(s, address)
    ensures Pending(Pairing.Apply(s, a), address) ==> Covered(Pairing.Apply(s, a), address)
  {
    if Pending(Pairing.Apply(s, a), address) {
      PendingWas(s, a, address);
      match a {
        case ClientSays(m) => SaysKeeps(s, m, address);
        case BluezCalls(path) => CallKeeps(s, path, address);
        case AgentReleased =>
        case OtherEvent => Queued(s.pipe, Unrelated, address);
        case _ =>
          CoverMoves(s, a, address);
          if Delivers(s, a, address) {
            DeliveryEnds(s, a, address);
          }
      }
    }
  }

  ghost predicate ForgetsAt(actions: seq<Pairing.Action>, i: nat, address: string) {
    i < |actions| && Forgets(Pairing.Run(actions[..i]), actions[i], address)
  }

  /** No confirmation of the device met a full timer table, and no answer for another device stopped its timer. */
  ghost predicate NeverForgets(actions: seq<Pairing.Action>, address: string) {
    forall i: nat :: !ForgetsAt(actions, i, address)
  }

  lemma ForgetsEarlier(actions: seq<Pairing.Action>, m: nat, i: nat, address: string)
    requires m <= |actions|
    ensures ForgetsAt(actions[..m], i, address) ==> ForgetsAt(actions, i, address)
  {
    if i < m {
      assert actions[..m][..i] == actions[..i];
    }
  }

  lemma NeverForgot(actions: seq<Pairing.Action>, address: string)
    requires actions != [] && NeverForgets(actions, address)
    ensures var m := |actions| - 1;
            NeverForgets(actions[..m], address) && !Forgets(Pairing.Run(actions[..m]), actions[m], address)
  {
    var m := |actions| - 1;
    forall i: nat
      ensures !ForgetsAt(actions[..m], i, address)
    {
      ForgetsEarlier(actions, m, i, address);
    }
    assert !ForgetsAt(actions, m, address);
  }

  /** Then every pending request is covered: the timeout answers it if no client does. */
  lemma {:induction false} PendingIsCovered(actions: seq<Pairing.Action>, address: string)
    requires NulFree(address) && address != "" && NeverForgets(actions, address)
    ensures Pending(Pairing.Run(actions), address) ==> Covered(Pairing.Run(actions), address)
    decreases |actions|
  {
    if actions == [] {
    } else {
      var m := |actions| - 1;
      var s := Pairing.Run(actions[..m]);
      NeverForgot(actions, address);
      PendingIsCovered(actions[..m], address);
      RunKeepsParts(actions[..m]);
      StepKeepsCovered(s, actions[m], address);
      assert Pairing.Run(actions) == Pairing.Apply(s, actions[m]);
    }
  }

  lemma OnlyAboutA(s: Pairing.System)
    requires N.SecondWaits(s) && s.pipe.coreQueue == [FromClient(DeviceOp(ACCEPT, "A"))]
    ensures var t := Pairing.Apply(s, Pairing.Action.CoreStep);
            t.timer.table == map[] && t.timer.expired == [] && t.timer.starter == T.Idle && t.toCore == []
            && t.pipe.coreQueue == [] && t.pipe.hwQueue == [] && "B" in t.agent.pending
            && t.pipe.channel == Frames([DeviceOp(REJECT, "A")]) + Frames([DeviceOp(ACCEPT, "A")])
  {
    assert s.timerIdMap["A"] == 1;
    var t := Pairing.Apply(s, Pairing.Action.CoreStep);
    assert t.timer.table.Keys == {};
  }

  /** A request can be forgotten: device B is pending, its timer was stopped by the answer for device A,
      and nothing is under way about it. */
  lemma RequestCanBeForgotten()
    ensures exists actions: seq<Pairing.Action> ::
              Pending(Pairing.Run(actions), "B") && !Covered(Pairing.Run(actions), "B")
  {
    var actions, s := N.SecondDeviceWaits();
    OnlyAboutA(s);
    var longer, t := N.OneMore(actions, Pairing.Action.CoreStep);
    var first, second := [DeviceOp(REJECT, "A")], [DeviceOp(ACCEPT, "A")];
    InChannelConcat(Frames(first), Frames(second));
    FramesBring(first);
    FramesBring(second);
    assert Under(t.pipe) == Seen(first) + Seen(second);
    AnsweringConcat(Seen(first), Seen(second), "B");
    assert CStr("A")[0] == 'A';
    assert !Covered(t, "B");
    assert Pending(Pairing.Run(longer), "B");
  }
}
