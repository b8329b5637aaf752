/** What was told is received: the server's own steps carry every message of the handlers, and every
 * snapshot, to the members. */
module BroadcastProgress {
  import opened Wrappers
  import W = WebSocketSessions
  import opened WebSocketServers
  import B = BroadcastOrder
  import L = LateJoiners
  import T = TemperatureShown
  import R = RecordHandlers

  // ---------------------------------------------------------------- from the handlers to the log

  function Pending(s: System): seq<Message> {
    if s.announcing.Some? then [s.announcing.value] else []
  }

  /** What clients are told about one event, after the reading `last`. */
  function TellOf(e: Event, last: int): seq<Message>
  {
    match e
    case RecordAnswer(n) => [RecordNoti(R.Broadcast(n.kind, n.ok))]
    case SwitchAnswer(turned) => [SwitchNoti(turned)]
    case TemperatureRead(c) => if c == last then [] else [Temperature(true, c)]
    case TemperatureFailed => [Temperature(false, 0)]
    case Tell(msg) => [Other(msg)]
    case _ => []
  }

  /** What one action adds to what has been told. */
  function Adds(s: System, a: Action, last: int): seq<Message> {
    if a.Handle? && s.announcing.None? then TellOf(a.e, last) else []
  }

  /** What the handlers of a run ask to broadcast, in the order of the events they handle. */
  function Told(actions: seq<Action>): seq<Message>
    decreases |actions|
  {
    if actions == [] then []
    else
      var earlier := actions[..|actions| - 1];
      Told(earlier) + Adds(Run(earlier), actions[|actions| - 1], T.LastReading(earlier))
  }

  lemma LogStep(s: System, a: Action)
    ensures var t := Apply(s, a);
            t.log + Pending(t) == s.log + Pending(s) + Adds(s, a, s.view.temperature)
  {
    var t := Apply(s, a);
    if a.Handle? && s.announcing.None? {
      assert s.log + [] == s.log;
      assert t.log == s.log && Pending(t) == TellOf(a.e, s.view.temperature);
    } else {
      assert s.log + Pending(s) + [] == s.log + Pending(s);
      if a == Announce && s.announcing.Some? && s.joining.None? {
        assert t.log + [] == s.log + [s.announcing.value];
      } else {
        assert t.log == s.log && Pending(t) == Pending(s);
      }
    }
  }

  /** In every run the broadcasts are what the handlers asked for, in order and without loss, except one
      that the MainWorker is about to make. */
  lemma {:induction false} LogIsWhatWasTold(actions: seq<Action>)
    ensures Run(actions).log + Pending(Run(actions)) == Told(actions)
    decreases |actions|
  {
    if actions == [] {
    } else {
      var earlier := actions[..|actions| - 1];
      LogIsWhatWasTold(earlier);
      T.ViewIsLastReading(earlier);
      LogStep(Run(earlier), actions[|actions| - 1]);
    }
  }

  // ---------------------------------------------------------------- continuations

  ghost function Continue(s: System, actions: seq<Action>): System
    decreases |actions|
  {
    if actions == [] then s else Apply(Continue(s, actions[..|actions| - 1]), actions[|actions| - 1])
  }

  lemma {:induction false} ContinueFirst(s: System, a: Action, actions: seq<Action>)
    ensures Continue(s, [a] + actions) == Continue(Apply(s, a), actions)
    decreases |actions|
  {
    if actions == [] {
      assert [a] + actions == [a] && [a][..0] == [];
    } else {
      assert ([a] + actions)[..|actions|] == [a] + actions[..|actions| - 1];
      ContinueFirst(s, a, actions[..|actions| - 1]);
    }
  }

  lemma {:induction false} ContinueBoth(s: System, first: seq<Action>, rest: seq<Action>)
    ensures Continue(s, first + rest) == Continue(Continue(s, first), rest)
    decreases |rest|
  {
    if rest == [] {
      assert first + rest == first;
    } else {
      assert (first + rest)[..|first + rest| - 1] == first + rest[..|rest| - 1];
      ContinueBoth(s, first, rest[..|rest| - 1]);
    }
  }

  lemma {:induction false} RunBoth(actions: seq<Action>, more: seq<Action>)
    ensures Run(actions + more) == Continue(Run(actions), more)
    decreases |more|
  {
    if more == [] {
      assert actions + more == actions;
    } else {
      assert (actions + more)[..|actions + more| - 1] == actions + more[..|more| - 1];
      RunBoth(actions, more[..|more| - 1]);
    }
  }

  // ---------------------------------------------------------------- those who left

  predicate Gone(s: System, k: nat) {
    k < |s.clients| && k !in s.sessions
  }

  lemma GoneStep(s: System, a: Action, k: nat)
    requires B.Inv(s) && Gone(s, k)
    ensures Gone(Apply(s, a), k) && Apply(s, a).clients[k].session.sent == s.clients[k].session.sent
  {
    assert B.OrderInv(s, k);
  }

  lemma {:induction false} StaysGone(s: System, more: seq<Action>, k: nat)
    requires B.Inv(s) && Gone(s, k)
    ensures var t := Continue(s, more);
            B.Inv(t) && Gone(t, k) && t.clients[k].session.sent == s.clients[k].session.sent
    decreases |more|
  {
    if more == [] {
    } else {
      var m := |more| - 1;
      StaysGone(s, more[..m], k);
      var t := Continue(s, more[..m]);
      B.StepKeeps(t, more[m]);
      GoneStep(t, more[m], k);
    }
  }

  /** Whoever has left is sent nothing any more, and does not come back as the same session. */
  lemma LeavesForGood(actions: seq<Action>, more: seq<Action>, k: nat)
    requires Gone(Run(actions), k)
    ensures Gone(Run(actions + more), k)
    ensures Run(actions + more).clients[k].session.sent == Run(actions).clients[k].session.sent
  {
    B.RunKeepsInv(actions);
    StaysGone(Run(actions), more, k);
    RunBoth(actions, more);
  }

  lemma LeavesAreGone(s: System, k: nat)
    requires k < |s.clients|
    ensures Gone(Leaves(s, k), k)
  {
  }

  /** A read error, a close and a failed write make the session leave, unless a join holds mutex_. */
  lemma LeaveIsDone(actions: seq<Action>, k: nat)
    requires Run(actions).joining.None? && k < |Run(actions).clients|
    ensures Gone(Run(actions + [Disconnect(k)]), k)
    ensures Run(actions).clients[k].session.running != [] ==> Gone(Run(actions + [Complete(k, false)]), k)
  {
    var s := Run(actions);
    var left, t := L.OneMore(actions, Disconnect(k));
    LeavesAreGone(s, k);
    var failed, u := L.OneMore(actions, Complete(k, false));
    if s.clients[k].session.running != [] {
      LeavesAreGone(Writes(s, k, W.OnComplete(s.clients[k].session, false)), k);
    }
  }

  // ---------------------------------------------------------------- a join and a broadcast come to their end

  /** The server's own steps: a join goes on, the MainWorker broadcasts, a session writes and succeeds. */
  predicate OwnStep(a: Action) {
    a == JoinStep || a == Announce || a.DoWrite? || (a.Complete? && a.ok)
  }

  predicate Own(actions: seq<Action>) {
    forall i | 0 <= i < |actions| :: OwnStep(actions[i])
  }

  /** They ask for no broadcast. */
  lemma {:induction false} OwnTellsNothing(actions: seq<Action>, more: seq<Action>)
    requires Own(more)
    ensures Told(actions + more) == Told(actions)
    decreases |more|
  {
    if more == [] {
      assert actions + more == actions;
    } else {
      var m := |more| - 1;
      assert (actions + more)[..|actions + more| - 1] == actions + more[..m];
      OwnTellsNothing(actions, more[..m]);
    }
  }

  function Left(j: Option<Join>): nat
  {
    match j
    case None => 0
    case Some(SendTemperature) => 6
    case Some(ReadRecord) => 5
    case Some(SendRecord(_)) => 4
    case Some(ReadPower) => 3
    case Some(ReadScan(_)) => 2
    case Some(SendSettings(_, _)) => 1
  }

  /** The same view, members and clients; only messages have moved. */
  predicate Alike(s: System, t: System)
  {
    && t.view == s.view && t.sessions == s.sessions && |t.clients| == |s.clients|
    && forall k | 0 <= k < |s.clients| :: t.clients[k].joinedAt == s.clients[k].joinedAt
  }

  function Settling(s: System): Action {
    if s.joining.Some? then JoinStep else Announce
  }

  lemma JoinSettles(s: System, j: Join)
    requires s.clients != [] && s.joining == Some(j)
    ensures var t := Joins(s, j);
            Alike(s, t) && Left(t.joining) < Left(s.joining) && t.announcing == s.announcing && t.log == s.log
  {
    match j {
      case SendTemperature =>
      case SendRecord(_) =>
      case SendSettings(_, _) =>
      case _ => assert Joins(s, j).clients == s.clients;
    }
  }

  lemma Settled(s: System)
    requires B.Inv(s) && (s.joining.Some? || s.announcing.Some?)
    ensures var t := Apply(s, Settling(s));
            && Alike(s, t) && Left(t.joining) + |Pending(t)| < Left(s.joining) + |Pending(s)|
            && t.log + Pending(t) == s.log + Pending(s)
  {
    LogStep(s, Settling(s));
    if s.joining.Some? {
      JoinSettles(s, s.joining.value);
    }
  }

  /** The join and the broadcast under way end: six steps of join and one broadcast do. */
  lemma {:induction false} CanSettle(s: System) returns (more: seq<Action>)
    requires B.Inv(s)
    ensures Own(more) && |more| <= Left(s.joining) + |Pending(s)| <= 7
    ensures var t := Continue(s, more);
            && B.Inv(t) && t.joining.None? && t.announcing.None? && Alike(s, t)
            && t.log == s.log + Pending(s)
    decreases Left(s.joining) + |Pending(s)|
  {
    if s.joining.None? && s.announcing.None? {
      more := [];
    } else {
      Settled(s);
      B.StepKeeps(s, Settling(s));
      var rest := CanSettle(Apply(s, Settling(s)));
      ContinueFirst(s, Settling(s), rest);
      more := [Settling(s)] + rest;
    }
  }

  // ---------------------------------------------------------------- everything sent is received

  /** Only the sessions' write loops moved. */
  predicate OnlyWrote(s: System, t: System)
  {
    && t == s.(clients := t.clients) && |t.clients| == |s.clients|
    && forall k | 0 <= k < |s.clients| ::
         t.clients[k] == s.clients[k].(session := t.clients[k].session) &&
         t.clients[k].session.sent == s.clients[k].session.sent
  }

  lemma OnlyWroteTwice(s: System, t: System, u: System)
    requires OnlyWrote(s, t) && OnlyWrote(t, u)
    ensures OnlyWrote(s, u)
  {
    assert forall k | 0 <= k < |s.clients| :: u.clients[k] == t.clients[k].(session := u.clients[k].session);
  }

  /** Client `k` has received everything that it was sent. */
  predicate UpToDate(s: System, k: nat) {
    k < |s.clients| && B.Delivered(s.clients[k]) == s.clients[k].session.sent
  }

  predicate Others(s: System, t: System, k: nat) {
    |t.clients| == |s.clients| && forall j | 0 <= j < |s.clients| && j != k :: t.clients[j] == s.clients[j]
  }

  function WriteOf(s: System, k: nat): Action
    requires k < |s.clients|
  {
    if s.clients[k].session.posted > 0 then DoWrite(k) else Complete(k, true)
  }

  function ToWrite(s: System, k: nat): nat
    requires k < |s.clients|
  {
    2 * |s.clients[k].session.queue| + s.clients[k].session.posted
  }

  lemma Wrote(s: System, k: nat)
    requires B.Inv(s) && k in s.sessions && k < |s.clients| && s.clients[k].session.queue != []
    ensures var t := Apply(s, WriteOf(s, k));
            OnlyWrote(s, t) && Others(s, t, k) && ToWrite(t, k) < ToWrite(s, k)
  {
    assert B.OrderInv(s, k) && B.WriteInv(s, k);
    W.NextWriteWorks(s.clients[k].session);
    assert s.clients[k].session.writing;
  }

  lemma DrainedIsUpToDate(s: System, k: nat)
    requires B.Inv(s) && k in s.sessions && k < |s.clients| && s.clients[k].session.queue == []
    ensures UpToDate(s, k)
  {
    assert B.WriteInv(s, k);
    assert W.Messages(s.clients[k].session.completed) + [] == W.Messages(s.clients[k].session.completed);
  }

  /** A member's own write loop brings it everything it was sent, and touches nobody else. */
  lemma {:induction false} MemberCanReceive(s: System, k: nat) returns (more: seq<Action>)
    requires B.Inv(s) && k in s.sessions && k < |s.clients|
    ensures Own(more)
    ensures var t := Continue(s, more);
            B.Inv(t) && OnlyWrote(s, t) && Others(s, t, k) && UpToDate(t, k)
    decreases ToWrite(s, k)
  {
    if s.clients[k].session.queue == [] {
      DrainedIsUpToDate(s, k);
      more := [];
    } else {
      Wrote(s, k);
      var t := Apply(s, WriteOf(s, k));
      B.StepKeeps(s, WriteOf(s, k));
      var rest := MemberCanReceive(t, k);
      ContinueFirst(s, WriteOf(s, k), rest);
      OnlyWroteTwice(s, t, Continue(t, rest));
      more := [WriteOf(s, k)] + rest;
    }
  }

  predicate AllUpToDate(s: System, n: nat) {
    forall k: nat | k < n && k in s.sessions :: UpToDate(s, k)
  }

  lemma OneMoreUpToDate(s: System, t: System, n: nat)
    requires AllUpToDate(s, n) && n < |s.clients| && OnlyWrote(s, t) && Others(s, t, n)
    requires n in s.sessions ==> UpToDate(t, n)
    ensures AllUpToDate(t, n + 1)
  {
    forall k: nat | k < n + 1 && k in t.sessions
      ensures UpToDate(t, k)
    {
      assert k < n ==> UpToDate(s, k);
    }
  }

  /** The first `n` connections that are still members can all receive everything. */
  lemma {:induction false} MembersCanReceive(s: System, n: nat) returns (more: seq<Action>)
    requires B.Inv(s) && n <= |s.clients|
    ensures Own(more)
    ensures var t := Continue(s, more);
            B.Inv(t) && OnlyWrote(s, t) && AllUpToDate(t, n)
    decreases n
  {
    if n == 0 {
      more := [];
    } else {
      more := MembersCanReceive(s, n - 1);
      var t := Continue(s, more);
      if n - 1 in t.sessions {
        var rest := MemberCanReceive(t, n - 1);
        ContinueBoth(s, more, rest);
        OnlyWroteTwice(s, t, Continue(t, rest));
        OneMoreUpToDate(t, Continue(t, rest), n - 1);
        more := more + rest;
      } else {
        OneMoreUpToDate(t, t, n - 1);
      }
    }
  }

  /** The member has received its whole snapshot and then every message that the handlers asked for since
      its join, in order, and shows the temperature and every flag that is not PROCESSING as StateView
      has them. */
  ghost predicate CaughtUp(s: System, k: nat, told: seq<Message>)
  {
    && UpToDate(s, k) && s.clients[k].joinedAt <= |told|
    && |s.clients[k].snapshot| == 3
    && B.Delivered(s.clients[k]) == s.clients[k].snapshot + told[s.clients[k].joinedAt..]
    && T.LastShown(B.Delivered(s.clients[k])) == Some(s.view.temperature)
    && forall topic | !L.Busy(s.view, topic) ::
         L.Shown(topic, B.Delivered(s.clients[k])) == Some(L.IsOn(s.view, topic))
  }

  lemma MemberCaughtUp(actions: seq<Action>, k: nat)
    requires var s := Run(actions);
             && s.joining.None? && s.announcing.None? && k in s.sessions && UpToDate(s, k)
             && s.log == Told(actions)
    ensures CaughtUp(Run(actions), k, Told(actions))
  {
    B.RunKeepsInv(actions);
    var s := Run(actions);
    assert B.OrderInv(s, k);
    T.RunKeepsInv(actions);
    assert T.ClientInv(s, k);
    forall topic | !L.Busy(s.view, topic)
      ensures L.Shown(topic, B.Delivered(s.clients[k])) == Some(L.IsOn(s.view, topic))
    {
      L.MembersShowTheView(actions, k, topic);
    }
  }

  lemma AllCaughtUp(actions: seq<Action>)
    requires var s := Run(actions);
             && s.joining.None? && s.announcing.None? && AllUpToDate(s, |s.clients|) && s.log == Told(actions)
    ensures forall k | k in Run(actions).sessions :: CaughtUp(Run(actions), k, Told(actions))
  {
    B.RunKeepsInv(actions);
    var s := Run(actions);
    forall k | k in s.sessions
      ensures CaughtUp(s, k, Told(actions))
    {
      assert UpToDate(s, k);
      MemberCaughtUp(actions, k);
    }
  }

  /** From every run, the server's own steps, with no help of a client or of another service, can bring
      every member everything: none leaves, and all catch up with the handlers and the view. */
  lemma EveryMemberCanCatchUp(actions: seq<Action>) returns (more: seq<Action>)
    ensures Own(more) && Told(actions + more) == Told(actions)
    ensures var t := Run(actions + more);
            && t.view == Run(actions).view && t.sessions == Run(actions).sessions
            && forall k | k in t.sessions :: CaughtUp(t, k, Told(actions))
  {
    var s := Run(actions);
    B.RunKeepsInv(actions);
    LogIsWhatWasTold(actions);
    var first := CanSettle(s);
    var t := Continue(s, first);
    var rest := MembersCanReceive(t, |t.clients|);
    more := first + rest;
    ContinueBoth(s, first, rest);
    RunBoth(actions, more);
    OwnTellsNothing(actions, more);
    AllCaughtUp(actions + more);
  }

  /** A join that nothing disturbs sends what the server object's own sendInitStateToClient sends. */
  lemma JoinSendsSnapshot(s: System)
    requires s.joining.None?
    ensures var s1 := Apply(Apply(Apply(s, Connect), JoinStep), JoinStep);
            var s2 := Apply(Apply(Apply(Apply(s1, JoinStep), JoinStep), JoinStep), JoinStep);
            && s2.joining.None? && |s2.clients| == |s.clients| + 1
            && s2.clients[|s.clients|].session == OnSendAll(W.Opened(), Snapshot(s.view))
            && s2.clients[|s.clients|].snapshot == Snapshot(s.view)
  {
    var n := |s.clients|;
    var a := Apply(Apply(s, Connect), JoinStep);
    assert a.clients[n] == Greeted(Client(W.Opened(), [], |s.log|, None), Snapshot(s.view)[0]);
    var b := Apply(Apply(a, JoinStep), JoinStep);
    assert b.clients[n] == Greeted(a.clients[n], Snapshot(s.view)[1]) && b.joining == Some(ReadPower);
    var c := Apply(Apply(Apply(b, JoinStep), JoinStep), JoinStep);
    assert c.clients[n] == Greeted(b.clients[n], Snapshot(s.view)[2]);
    ThreeSends(W.Opened(), Snapshot(s.view));
  }
}
