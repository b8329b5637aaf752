/** Total order of the broadcasts: every session's log is its snapshot followed by one contiguous
 * slice of the server's broadcast log. */
module BroadcastOrder {
  import opened Wrappers
  import W = WebSocketSessions
  import opened WebSocketServers

  /** Broadcasts of which the client can have heard: those before its leaving. */
  function End(s: System, k: nat): nat
    requires k < |s.clients|
  {
    match s.clients[k].leftAt case Some(n) => n case None => |s.log|
  }

  predicate IsJoining(s: System, k: nat) {
    s.joining.Some? && k == |s.clients| - 1
  }

  /** How much of the snapshot a thread inside join has sent. */
  function Stage(j: Join): nat
  {
    match j
    case SendTemperature => 0
    case ReadRecord => 1
    case SendRecord(_) => 1
    case _ => 2
  }

  predicate IsSnapshot(ms: seq<Message>)
  {
    && |ms| <= 3
    && (|ms| > 0 ==> ms[0].Temperature?)
    && (|ms| > 1 ==> ms[1].InitialRecord?)
    && (|ms| > 2 ==> ms[2].InitialSettings?)
  }

  ghost predicate OrderInv(s: System, k: nat)
    requires k < |s.clients|
  {
    var c := s.clients[k];
    && c.joinedAt <= End(s, k) <= |s.log|
    && (k in s.sessions <==> c.leftAt.None?)
    && c.session.sent == c.snapshot + s.log[c.joinedAt..End(s, k)]
    && IsSnapshot(c.snapshot)
    && |c.snapshot| == (if IsJoining(s, k) then Stage(s.joining.value) else 3)
    && (IsJoining(s, k) ==> c.joinedAt == |s.log| && k in s.sessions)
  }

  /** A failed write is the session's last one. */
  ghost predicate WriteInv(s: System, k: nat)
    requires k < |s.clients|
  {
    var c := s.clients[k].session;
    && W.Inv(c)
    && (!W.AllOk(c.completed) ==>
          k !in s.sessions && !c.writing && W.AllOk(c.completed[..|c.completed| - 1]))
  }

  ghost predicate Inv(s: System)
  {
    && (forall k | k in s.sessions :: k < |s.clients|)
    && (s.joining.Some? ==> s.clients != [])
    && (forall k: nat | k < |s.clients| :: OrderInv(s, k) && WriteInv(s, k))
  }

  // ---------------------------------------------------------------- every step keeps it

  lemma AnnounceKeeps(s: System, k: nat)
    requires Inv(s) && k < |s.clients| && s.announcing.Some? && s.joining.None?
    ensures OrderInv(Apply(s, Announce), k) && WriteInv(Apply(s, Announce), k)
  {
    assert OrderInv(s, k) && WriteInv(s, k);
    var t := Apply(s, Announce);
    var c := s.clients[k];
    var m := s.announcing.value;
    if k in s.sessions {
      assert t.log[c.joinedAt..|t.log|] == s.log[c.joinedAt..|s.log|] + [m];
      W.StepKeepsInv(c.session, W.Send(m));
    } else {
      assert t.log[c.joinedAt..End(s, k)] == s.log[c.joinedAt..End(s, k)];
    }
  }

  lemma GreetKeeps(s: System, m: Message, next: Option<Join>, k: nat)
    requires Inv(s) && s.joining.Some? && k < |s.clients|
    requires next == None ==> |s.clients[|s.clients| - 1].snapshot| == 2
    requires next.Some? ==> Stage(next.value) == |s.clients[|s.clients| - 1].snapshot| + 1
    requires IsSnapshot(s.clients[|s.clients| - 1].snapshot + [m])
    ensures OrderInv(Greets(s, m, next), k) && WriteInv(Greets(s, m, next), k)
  {
    assert OrderInv(s, k) && WriteInv(s, k);
    if IsJoining(s, k) {
      var c := s.clients[k];
      assert s.log[c.joinedAt..|s.log|] == [];
      W.StepKeepsInv(c.session, W.Send(m));
    }
  }

  lemma JoinKeeps(s: System, k: nat)
    requires Inv(s) && s.joining.Some? && k < |s.clients|
    ensures OrderInv(Joins(s, s.joining.value), k) && WriteInv(Joins(s, s.joining.value), k)
  {
    assert OrderInv(s, |s.clients| - 1);
    assert OrderInv(s, k) && WriteInv(s, k);
    match s.joining.value {
      case SendTemperature => GreetKeeps(s, Temperature(true, s.view.temperature), Some(ReadRecord), k);
      case SendRecord(b) => GreetKeeps(s, InitialRecord(b), Some(ReadPower), k);
      case SendSettings(power, scan) => GreetKeeps(s, InitialSettings(power, scan), None, k);
      case _ =>
    }
  }

  lemma LeaveKeeps(s: System, j: nat, k: nat)
    requires Inv(s) && s.joining.None? && k < |s.clients|
    ensures OrderInv(Leaves(s, j), k) && WriteInv(Leaves(s, j), k)
  {
    assert OrderInv(s, k) && WriteInv(s, k);
  }

  lemma OkWriteKeeps(s: System, j: nat, k: nat, a: W.Action<Message>)
    requires Inv(s) && k < |s.clients| && j < |s.clients|
    requires a == W.DoWrite || (a == W.Complete(true) && s.clients[j].session.running != [])
    ensures var t := Writes(s, j, W.Apply(s.clients[j].session, a));
            OrderInv(t, k) && WriteInv(t, k)
  {
    assert OrderInv(s, k) && WriteInv(s, k) && OrderInv(s, j) && WriteInv(s, j);
    W.StepKeepsInv(s.clients[j].session, a);
  }

  lemma FailKeeps(s: System, j: nat, k: nat)
    requires Inv(s) && k < |s.clients| && j < |s.clients| && s.joining.None? && s.clients[j].session.running != []
    ensures var t := Apply(s, Action.Complete(j, false));
            OrderInv(t, k) && WriteInv(t, k)
  {
    assert OrderInv(s, k) && WriteInv(s, k) && OrderInv(s, j) && WriteInv(s, j);
    var before := s.clients[j].session;
    W.StepKeepsInv(before, W.Complete(false));
    assert before.writing && W.AllOk(before.completed);
    var after := W.OnComplete(before, false);
    assert after.completed[..|after.completed| - 1] == before.completed;
  }

  lemma ConnectKeeps(s: System, k: nat)
    requires Inv(s) && s.joining.None? && k <= |s.clients|
    ensures OrderInv(Apply(s, Connect), k) && WriteInv(Apply(s, Connect), k)
  {
    var t := Apply(s, Connect);
    if k < |s.clients| {
      assert OrderInv(s, k) && WriteInv(s, k);
      assert t.clients[k] == s.clients[k];
    } else {
      assert t.clients[k] == Client(W.Opened(), [], |s.log|, None);
      assert k !in s.sessions;
    }
  }

  lemma ClientKept(s: System, a: Action, k: nat)
    requires Inv(s) && k < |Apply(s, a).clients|
    ensures OrderInv(Apply(s, a), k) && WriteInv(Apply(s, a), k)
  {
    assert k < |s.clients| ==> OrderInv(s, k) && WriteInv(s, k);
    match a {
      case Handle(e) =>
      case Announce => if s.announcing.Some? && s.joining.None? { AnnounceKeeps(s, k); }
      case Connect => if s.joining.None? { ConnectKeeps(s, k); }
      case JoinStep => if s.joining.Some? { JoinKeeps(s, k); }
      case Disconnect(j) => if s.joining.None? { LeaveKeeps(s, j, k); }
      case DoWrite(j) => if j < |s.clients| { OkWriteKeeps(s, j, k, W.DoWrite); }
      case Complete(j, ok) =>
        if j < |s.clients| && s.clients[j].session.running != [] {
          if ok {
            OkWriteKeeps(s, j, k, W.Complete(true));
          } else if s.joining.None? {
            FailKeeps(s, j, k);
          }
        }
    }
  }

  lemma StepKeeps(s: System, a: Action)
    requires Inv(s)
    ensures Inv(Apply(s, a))
  {
    var t := Apply(s, a);
    forall k: nat | k < |t.clients|
      ensures OrderInv(t, k) && WriteInv(t, k)
    {
      ClientKept(s, a, k);
    }
  }

  lemma {:induction false} RunKeepsInv(actions: seq<Action>)
    ensures Inv(Run(actions))
    decreases |actions|
  {
    if actions == [] {
    } else {
      RunKeepsInv(actions[..|actions| - 1]);
      StepKeeps(Run(actions[..|actions| - 1]), actions[|actions| - 1]);
    }
  }

  // ---------------------------------------------------------------- total order

  /** A client that has joined was sent a snapshot, and then every broadcast from its join to its
      leaving, without gaps and in the server's order. */
  lemma SnapshotThenSlice(actions: seq<Action>, k: nat)
    requires k < |Run(actions).clients| && !IsJoining(Run(actions), k)
    ensures var s := Run(actions);
            var c := s.clients[k];
            && c.joinedAt <= End(s, k) <= |s.log| && |c.session.sent| == 3 + End(s, k) - c.joinedAt
            && c.session.sent[0].Temperature? && c.session.sent[1].InitialRecord? && c.session.sent[2].InitialSettings?
            && c.session.sent[3..] == s.log[c.joinedAt..End(s, k)]
            && (k in s.sessions ==> End(s, k) == |s.log|)
  {
    RunKeepsInv(actions);
    var s := Run(actions);
    assert OrderInv(s, k);
  }

  /** The client had joined before broadcast `from` and had not left before broadcast `until`. */
  ghost predicate HeardAll(s: System, k: nat, from: nat, until: nat)
  {
    k < |s.clients| && !IsJoining(s, k) && s.clients[k].joinedAt <= from <= until <= End(s, k)
  }

  lemma SliceOfSlice(sent: seq<Message>, log: seq<Message>, lo: nat, hi: nat, from: nat, until: nat)
    requires lo <= from <= until <= hi <= |log| && |sent| == 3 + hi - lo && sent[3..] == log[lo..hi]
    ensures sent[3 + from - lo..3 + from - lo + until - from] == log[from..until]
  {
    var part := sent[3 + from - lo..3 + from - lo + until - from];
    forall i | 0 <= i < |part|
      ensures part[i] == log[from..until][i]
    {
      assert part[i] == sent[3..][from - lo + i] == log[lo..hi][from - lo + i];
    }
  }

  /** What the client was sent holds `part` in one piece, where broadcast `from` belongs. */
  ghost predicate Carries(s: System, k: nat, from: nat, part: seq<Message>)
  {
    && k < |s.clients|
    && var at := 3 + from - s.clients[k].joinedAt;
       3 <= at && at + |part| <= |s.clients[k].session.sent| && s.clients[k].session.sent[at..at + |part|] == part
  }

  /** Where broadcasts `from` to `until` are in what the client was sent. */
  lemma PartOfSlice(actions: seq<Action>, k: nat, from: nat, until: nat)
    requires HeardAll(Run(actions), k, from, until)
    ensures until <= |Run(actions).log| && Carries(Run(actions), k, from, Run(actions).log[from..until])
  {
    SnapshotThenSlice(actions, k);
    var s := Run(actions);
    SliceOfSlice(s.clients[k].session.sent, s.log, s.clients[k].joinedAt, End(s, k), from, until);
  }

  /** Two clients were sent the broadcasts that fall in the time of both as one identical run of messages. */
  lemma CommonMessagesAgree(actions: seq<Action>, i: nat, j: nat, from: nat, until: nat)
    requires HeardAll(Run(actions), i, from, until) && HeardAll(Run(actions), j, from, until)
    ensures until <= |Run(actions).log|
    ensures var part := Run(actions).log[from..until];
            Carries(Run(actions), i, from, part) && Carries(Run(actions), j, from, part)
  {
    PartOfSlice(actions, i, from, until);
    PartOfSlice(actions, j, from, until);
  }

  /** What was written without an error, in the order of completion. */
  function Delivered(c: Client): seq<Message>
  {
    var done := c.session.completed;
    W.Messages(if done != [] && !done[|done| - 1].ok then done[..|done| - 1] else done)
  }

  lemma DeliveredPrefix(c: Client)
    requires W.Inv(c.session)
    requires !W.AllOk(c.session.completed) ==> W.AllOk(c.session.completed[..|c.session.completed| - 1])
    ensures Delivered(c) <= c.session.sent
    ensures forall i | 0 <= i < |c.session.completed| - 1 :: c.session.completed[i].ok
  {
    var done := c.session.completed;
    if done != [] && !done[|done| - 1].ok {
      assert W.Messages(done[..|done| - 1]) == W.Messages(done)[..|done| - 1];
    }
    if !W.AllOk(done) {
      assert forall i | 0 <= i < |done| - 1 :: done[..|done| - 1][i] == done[i];
    }
  }

  /** A client receives a prefix of what it was sent: at most one write fails, nothing is written after
      it, and a member whose queue has drained has received everything. */
  lemma ReceivesInOrder(actions: seq<Action>, k: nat)
    requires k < |Run(actions).clients|
    ensures var s := Run(actions);
            var c := s.clients[k];
            var done := c.session.completed;
            && Delivered(c) <= c.session.sent
            && (forall i | 0 <= i < |done| - 1 :: done[i].ok)
            && (!W.AllOk(done) ==> k !in s.sessions && c.session.posted == 0 && c.session.running == [])
            && (k in s.sessions && c.session.queue == [] ==> Delivered(c) == c.session.sent)
  {
    RunKeepsInv(actions);
    assert WriteInv(Run(actions), k);
    DeliveredPrefix(Run(actions).clients[k]);
  }
}
