/** Confirmation requests can be answered: the managers' own steps carry every operation to the agent, and
 * the agent answers the pending request as the operation says. */
module PairingProgress {
  import opened Wrappers
  import opened Wire
  import opened CommandPipeline
  import opened Pairing
  import A = BluetoothAgents
  import T = TimerProtocol

  /** Steps of core's MainWorker, the channel and hardwaremgr's MainWorker. */
  predicate OwnStep(a: Pairing.Action) {
    || a == StartStep || a == Pairing.Action.CoreStep
    || a == Pairing.Action.Transmit || a == Pairing.Action.HwStep
  }

  predicate Own(actions: seq<Pairing.Action>) {
    forall i | 0 <= i < |actions| :: OwnStep(actions[i])
  }

  ghost function Continue(s: Pairing.System, actions: seq<Pairing.Action>): Pairing.System
    decreases |actions|
  {
    if actions == [] then s
    else Pairing.Apply(Continue(s, actions[..|actions| - 1]), actions[|actions| - 1])
  }

  lemma ContinueFirst(s: Pairing.System, a: Pairing.Action, actions: seq<Pairing.Action>)
    ensures Continue(s, [a] + actions) == Continue(Pairing.Apply(s, a), actions)
    decreases |actions|
  {
    if actions == [] {
      assert [a] + actions == [a] && [a][..0] == [];
    } else {
      assert ([a] + actions)[..|actions|] == [a] + actions[..|actions| - 1];
      ContinueFirst(s, a, actions[..|actions| - 1]);
    }
  }

  /** Nothing is under way between core's queue and the agent. */
  predicate Drained(s: Pairing.System) {
    s.timer.starter == T.Idle && s.pipe.coreQueue == [] && s.pipe.channel == [] && s.pipe.hwQueue == []
  }

  function Starting(starter: T.Starter): nat {
    match starter case Idle => 0 case Chosen(_, _, _) => 2 case Made(_, _, _) => 1
  }

  function Work(s: Pairing.System): nat {
    8 * |s.pipe.coreQueue| + Starting(s.timer.starter) + 3 * |s.pipe.channel| + |s.pipe.hwQueue|
  }

  function Next(s: Pairing.System): Pairing.Action
  {
    if s.timer.starter != T.Idle then StartStep
    else if s.pipe.coreQueue != [] then Pairing.Action.CoreStep
    else if s.pipe.channel != [] then Pairing.Action.Transmit
    else Pairing.Action.HwStep
  }

  lemma OneFrame(e: CoreEvent)
    ensures |Frames(Handled(e))| <= 1
  {
    if Handled(e) != [] {
      assert Handled(e)[1..] == [];
    }
  }

  lemma CoreWorks(s: Pairing.System)
    requires !CoreBusy(s)
    ensures Work(Pairing.Apply(s, Pairing.Action.CoreStep)) < Work(s)
  {
    var t := Pairing.Apply(s, Pairing.Action.CoreStep);
    OneFrame(s.pipe.coreQueue[0]);
    Projections(s, Pairing.Action.CoreStep);
    assert |t.pipe.coreQueue| == |s.pipe.coreQueue| - 1 && |t.pipe.channel| <= |s.pipe.channel| + 1;
    assert t.pipe.hwQueue == s.pipe.hwQueue;
  }

  lemma NextWorks(s: Pairing.System)
    requires !Drained(s)
    ensures Work(Pairing.Apply(s, Next(s))) < Work(s) && OwnStep(Next(s))
  {
    if s.timer.starter == T.Idle && s.pipe.coreQueue != [] {
      CoreWorks(s);
    }
  }

  /** From every state the managers' own steps bring everything under way to its end. */
  lemma {:induction false} PipelineDrains(s: Pairing.System) returns (actions: seq<Pairing.Action>)
    ensures Own(actions) && Drained(Continue(s, actions))
    decreases Work(s)
  {
    if Drained(s) {
      actions := [];
    } else {
      NextWorks(s);
      actions := PipelineDrains(Pairing.Apply(s, Next(s)));
      ContinueFirst(s, Next(s), actions);
      actions := [Next(s)] + actions;
    }
  }

  /** What core's queue holds is an answer for `address`: a client's, or the timeout's. */
  predicate Answers(e: CoreEvent, address: string, ok: bool) {
    || (e == FromClient(DeviceOp(ACCEPT, address)) && ok)
    || (e == FromClient(DeviceOp(REJECT, address)) && !ok)
    || (e == Timeout(address) && !ok)
  }

  const CARRY: seq<Pairing.Action> := [Pairing.Action.CoreStep, Pairing.Action.Transmit, Pairing.Action.HwStep]

  lemma CoreSends(s: Pairing.System, address: string, ok: bool)
    requires s.timer.starter == T.Idle && s.pipe.channel == [] && s.pipe.hwQueue == []
    requires |s.pipe.coreQueue| == 1 && Answers(s.pipe.coreQueue[0], address, ok) && NulFree(address)
    ensures var t := Pairing.Apply(s, Pairing.Action.CoreStep);
            && t.pipe.channel == [FrameOf(DeviceOp(if ok then ACCEPT else REJECT, address))] && t.pipe.hwQueue == []
            && t.agent == s.agent
  {
    var what := DeviceOp(if ok then ACCEPT else REJECT, address);
    assert Handled(s.pipe.coreQueue[0]) == [what];
    assert Frames([what]) == [FrameOf(what)] + Frames([what][1..]);
  }

  lemma FrameArrives(s: Pairing.System, what: DeviceOp)
    requires s.pipe.channel == [FrameOf(what)] && s.pipe.hwQueue == [] && NulFree(what.address)
    ensures var t := Pairing.Apply(s, Pairing.Action.Transmit);
            t.pipe.hwQueue == [what] && t.agent == s.agent
  {
    FrameBrings(what);
    assert Seen([what]) == [what];
  }

  lemma AgentAnswers(s: Pairing.System, address: string, ok: bool)
    requires s.pipe.hwQueue == [DeviceOp(if ok then ACCEPT else REJECT, address)] && address in s.agent.pending
    ensures var t := Pairing.Apply(s, Pairing.Action.HwStep);
            && t.agent.replies == s.agent.replies + [A.Reply(s.agent.pending[address], ok, address)]
            && t.agent.pending == s.agent.pending - {address}
  {
    Projections(s, Pairing.Action.HwStep);
  }

  lemma Carried(s: Pairing.System)
    ensures var t := Pairing.Apply(Pairing.Apply(s, Pairing.Action.CoreStep), Pairing.Action.Transmit);
            Continue(s, CARRY) == Pairing.Apply(t, Pairing.Action.HwStep)
  {
    ContinueFirst(s, CARRY[0], CARRY[1..]);
    assert [CARRY[0]] + CARRY[1..] == CARRY;
    var s1 := Pairing.Apply(s, CARRY[0]);
    ContinueFirst(s1, CARRY[1], [CARRY[2]]);
    assert [CARRY[1]] + [CARRY[2]] == CARRY[1..];
    var s2 := Pairing.Apply(s1, CARRY[1]);
    ContinueFirst(s2, CARRY[2], []);
    assert [CARRY[2]] + [] == [CARRY[2]];
  }

  /** The answer reaches the agent in three steps, and the pending request gets it: METHOD_RETURN for an
      accept, an error for a reject and for the timeout. */
  lemma AnswerTakesEffect(s: Pairing.System, address: string, ok: bool)
    requires s.timer.starter == T.Idle && s.pipe.channel == [] && s.pipe.hwQueue == []
    requires |s.pipe.coreQueue| == 1 && Answers(s.pipe.coreQueue[0], address, ok) && NulFree(address)
    requires address in s.agent.pending
    ensures var t := Continue(s, CARRY);
            && t.agent.replies == s.agent.replies + [A.Reply(s.agent.pending[address], ok, address)]
            && t.agent.pending == s.agent.pending - {address}
  {
    var s1 := Pairing.Apply(s, Pairing.Action.CoreStep);
    CoreSends(s, address, ok);
    FrameArrives(s1, DeviceOp(if ok then ACCEPT else REJECT, address));
    AgentAnswers(Pairing.Apply(s1, Pairing.Action.Transmit), address, ok);
    Carried(s);
  }

  /** A client's message that asks to accept or reject `address`. */
  predicate AnswersAs(m: ClientMessage, address: string, ok: bool) {
    AsksFor(m, DeviceOp(if ok then ACCEPT else REJECT, address))
  }

  /** From every state: once what is under way has come to its end, a device whose request is then still
      pending gets the answer that a client gives. */
  lemma PendingRequestCanBeAnswered(s: Pairing.System, m: ClientMessage, address: string, ok: bool)
    returns (before: seq<Pairing.Action>)
    requires NulFree(address) && AnswersAs(m, address, ok)
    ensures Own(before) && Drained(Continue(s, before))
    ensures var r := Continue(s, before);
            var t := Continue(Pairing.Apply(r, Pairing.Action.ClientSays(m)), CARRY);
            address in r.agent.pending ==>
              t.agent.replies == r.agent.replies + [A.Reply(r.agent.pending[address], ok, address)]
  {
    before := PipelineDrains(s);
    var r := Continue(s, before);
    MessageMeans(m);
    var u := Pairing.Apply(r, Pairing.Action.ClientSays(m));
    assert u.pipe.coreQueue == [FromClient(DeviceOp(if ok then ACCEPT else REJECT, address))];
    if address in r.agent.pending {
      AnswerTakesEffect(u, address, ok);
    }
  }

  /** A device that asks is pending, and core hears of it. */
  lemma RequestIsPending(s: Pairing.System, path: Option<string>)
    requires A.AddressOf(path) != ""
    ensures var t := Pairing.Apply(s, BluezCalls(path));
            && A.AddressOf(path) in t.agent.pending && t.agent.pending[A.AddressOf(path)] == s.agent.requests
            && t.agent.replies == s.agent.replies && t.toCore == s.toCore + [A.AddressOf(path)]
  {
  }
}
