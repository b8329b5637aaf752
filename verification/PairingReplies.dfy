/** What becomes of a confirmation request at BlueZ: it is answered as the operation says that was taken
 * for its device, and core sends the operations that clients and timeouts ask for. */
module PairingReplies {
  import opened Wrappers
  import opened Wire
  import opened CommandPipeline
  import opened Pairing
  import A = BluetoothAgents

  // ---------------------------------------------------------------- replies are what was taken

  /** hardwaremgr's MainWorker takes an operation `what` for a device that has a pending request. */
  predicate Takes(s: Pairing.System, a: Pairing.Action, what: DeviceOp) {
    a == Pairing.Action.HwStep && s.pipe.hwQueue != [] && s.pipe.hwQueue[0] == what && what.address in s.agent.pending
  }

  ghost function Taken(actions: seq<Pairing.Action>, what: DeviceOp): nat
    decreases |actions|
  {
    if actions == [] then 0
    else
      var before := actions[..|actions| - 1];
      Taken(before, what) + One(Takes(Pairing.Run(before), actions[|actions| - 1], what))
  }

  /** Replies of one kind to the requests of one device. */
  function Replied(replies: seq<A.Reply>, address: string, ok: bool): nat
  {
    if replies == [] then 0
    else One(replies[0].ok == ok && replies[0].address == address) + Replied(replies[1..], address, ok)
  }

  lemma {:induction false} RepliedNext(replies: seq<A.Reply>, x: A.Reply, address: string, ok: bool)
    ensures Replied(replies + [x], address, ok) ==
      Replied(replies, address, ok) + One(x.ok == ok && x.address == address)
  {
    if replies == [] {
      assert replies + [x] == [x];
    } else {
      assert (replies + [x])[1..] == replies[1..] + [x];
      RepliedNext(replies[1..], x, address, ok);
    }
  }

  /** ACCEPT is answered with METHOD_RETURN, REJECT with an error. */
  predicate Means(op: Op, ok: bool) {
    (op == ACCEPT && ok) || (op == REJECT && !ok)
  }

  lemma AgentReplies(agent: A.Agent, b: A.Action, address: string, ok: bool)
    requires address != ""
    ensures Replied(A.Apply(agent, b).replies, address, ok) ==
      Replied(agent.replies, address, ok) + One(b == A.Confirm(address, ok) && address in agent.pending)
  {
    match b {
      case Request(path) => RepliedNext(agent.replies, A.Reply(agent.requests, false, ""), address, ok);
      case Confirm(x, confirmed) =>
        if x in agent.pending {
          RepliedNext(agent.replies, A.Reply(agent.pending[x], confirmed, x), address, ok);
        }
      case Release =>
    }
  }

  lemma ReplyStep(s: Pairing.System, a: Pairing.Action, op: Op, address: string, ok: bool)
    requires address != "" && Means(op, ok)
    ensures Replied(Pairing.Apply(s, a).agent.replies, address, ok) ==
      Replied(s.agent.replies, address, ok) + One(Takes(s, a, DeviceOp(op, address)))
  {
    Projections(s, a);
    if AgentAction(s, a).Some? {
      AgentReplies(s.agent, AgentAction(s, a).value, address, ok);
    }
  }

  /** In every run, for every device: METHOD_RETURN replies to its requests are as many as the accepts
      that were taken while it had a request pending, and error replies as many as the rejects. */
  lemma {:induction false} RepliesAreWhatWasTaken(actions: seq<Pairing.Action>, address: string)
    requires address != ""
    ensures Replied(Pairing.Run(actions).agent.replies, address, true) == Taken(actions, DeviceOp(ACCEPT, address))
    ensures Replied(Pairing.Run(actions).agent.replies, address, false) == Taken(actions, DeviceOp(REJECT, address))
    decreases |actions|
  {
    if actions == [] {
    } else {
      var before := actions[..|actions| - 1];
      RepliesAreWhatWasTaken(before, address);
      ReplyStep(Pairing.Run(before), actions[|actions| - 1], ACCEPT, address, true);
      ReplyStep(Pairing.Run(before), actions[|actions| - 1], REJECT, address, false);
    }
  }

  // ---------------------------------------------------------------- operations are what was asked for

  /** Core handles a client command for `what`; the address counts up to its first NUL. */
  predicate Asks(s: Pairing.System, a: Pairing.Action, what: DeviceOp) {
    && a == Pairing.Action.CoreStep && !CoreBusy(s) && s.pipe.coreQueue[0].FromClient?
    && s.pipe.coreQueue[0].what.op == what.op && CStr(s.pipe.coreQueue[0].what.address) == what.address
  }

  /** Core handles a timeout of the device. */
  predicate TimesOut(s: Pairing.System, a: Pairing.Action, address: string) {
    && a == Pairing.Action.CoreStep && !CoreBusy(s) && s.pipe.coreQueue[0].Timeout?
    && CStr(s.pipe.coreQueue[0].address) == address
  }

  ghost function ClientsAsked(actions: seq<Pairing.Action>, what: DeviceOp): nat
    decreases |actions|
  {
    if actions == [] then 0
    else
      var before := actions[..|actions| - 1];
      ClientsAsked(before, what) + One(Asks(Pairing.Run(before), actions[|actions| - 1], what))
  }

  /** The timeouts that core has recorded for a device. */
  function TimedOut(timedOut: seq<Start>, address: string): nat
    decreases |timedOut|
  {
    if timedOut == [] then 0
    else TimedOut(timedOut[..|timedOut| - 1], address) + One(CStr(timedOut[|timedOut| - 1].address) == address)
  }

  /** Operations past core: on the channel, in hardwaremgr's queue, or executed. */
  function Sent(p: CommandPipeline.System, what: DeviceOp): nat {
    Count(p.executed, what) + Count(p.hwQueue, what) + Count(InChannel(p.channel), what)
  }

  /** What core sends for one event, said outright. */
  predicate Causes(e: CoreEvent, what: DeviceOp)
  {
    match e
    case FromClient(x) => x.op == what.op && CStr(x.address) == what.address
    case Timeout(address) => what.op == REJECT && CStr(address) == what.address
    case _ => false
  }

  lemma CountOne(x: DeviceOp, what: DeviceOp)
    ensures Count([x], what) == One(x == what)
  {
    assert [x][1..] == [];
  }

  lemma EventSends(e: CoreEvent, what: DeviceOp)
    ensures Count(InChannel(Frames(Handled(e))), what) == One(Causes(e, what))
  {
    FramesBring(Handled(e));
    match e {
      case FromClient(x) =>
        assert Seen([x]) == [DeviceOp(x.op, CStr(x.address))];
        CountOne(DeviceOp(x.op, CStr(x.address)), what);
      case Timeout(address) =>
        assert Seen([DeviceOp(REJECT, address)]) == [DeviceOp(REJECT, CStr(address))];
        CountOne(DeviceOp(REJECT, CStr(address)), what);
      case _ => assert Seen([]) == [];
    }
  }

  lemma CoreSends(p: CommandPipeline.System, what: DeviceOp)
    requires p.coreQueue != []
    ensures Sent(CommandPipeline.Apply(p, CommandPipeline.CoreStep), what) ==
      Sent(p, what) + One(Causes(p.coreQueue[0], what))
  {
    var frames := Frames(Handled(p.coreQueue[0]));
    InChannelConcat(p.channel, frames);
    CountConcat(InChannel(p.channel), InChannel(frames), what);
    EventSends(p.coreQueue[0], what);
  }

  lemma OthersMove(p: CommandPipeline.System, b: CommandPipeline.Action, what: DeviceOp)
    requires b != CommandPipeline.CoreStep
    ensures Sent(CommandPipeline.Apply(p, b), what) == Sent(p, what)
  {
    match b {
      case Transmit =>
        if p.channel != [] {
          CountConcat(p.hwQueue, Arrives(p.channel[0]), what);
          CountConcat(Arrives(p.channel[0]), InChannel(p.channel[1..]), what);
        }
      case HwStep =>
        if p.hwQueue != [] {
          CountConcat(p.executed, [p.hwQueue[0]], what);
          CountOne(p.hwQueue[0], what);
        }
      case _ =>
    }
  }

  lemma TimedOutNext(timedOut: seq<Start>, x: Start, address: string)
    ensures TimedOut(timedOut + [x], address) == TimedOut(timedOut, address) + One(CStr(x.address) == address)
  {
    assert (timedOut + [x])[..|timedOut + [x]| - 1] == timedOut;
  }

  lemma RecordsTimeout(s: Pairing.System, a: Pairing.Action, address: string)
    ensures TimedOut(Pairing.Apply(s, a).timedOut, address) ==
      TimedOut(s.timedOut, address) + One(TimesOut(s, a, address))
  {
    var t := Pairing.Apply(s, a);
    if a == Pairing.Action.CoreStep && !CoreBusy(s) && s.pipe.coreQueue[0].Timeout? {
      var x := Start(s.pipe.coreQueue[0].address, s.timer.now);
      assert t.timedOut == s.timedOut + [x];
      TimedOutNext(s.timedOut, x, address);
    } else {
      assert t.timedOut == s.timedOut;
    }
  }

  lemma SentStep(s: Pairing.System, a: Pairing.Action, what: DeviceOp)
    ensures Sent(Pairing.Apply(s, a).pipe, what) ==
      Sent(s.pipe, what) + One(Asks(s, a, what)) + One(what.op == REJECT && TimesOut(s, a, what.address))
  {
    Projections(s, a);
    if PipeAction(s, a).Some? {
      if PipeAction(s, a).value == CommandPipeline.CoreStep {
        CoreSends(s.pipe, what);
      } else {
        OthersMove(s.pipe, PipeAction(s, a).value, what);
      }
    }
  }

  /** In every run, for every device and operation: those executed, queued in hardwaremgr and on the
      channel are as many as the client commands for it that core has handled, and for REJECT also the
      timeouts that core has recorded. */
  lemma {:induction false} SentIsWhatWasAsked(actions: seq<Pairing.Action>, what: DeviceOp)
    ensures var s := Pairing.Run(actions);
            Sent(s.pipe, what) ==
              ClientsAsked(actions, what) + if what.op == REJECT then TimedOut(s.timedOut, what.address) else 0
    decreases |actions|
  {
    if actions == [] {
    } else {
      var before := actions[..|actions| - 1];
      SentIsWhatWasAsked(before, what);
      SentStep(Pairing.Run(before), actions[|actions| - 1], what);
      RecordsTimeout(Pairing.Run(before), actions[|actions| - 1], what.address);
    }
  }
}
