/** Pairing confirmation end to end: BlueZ calls the agent, the agent notifies core, core tells its
 * clients and starts a timer, and a client's answer or the timeout travels back to the agent.
 *
 * The system is the command pipeline, the agent and the timer service, with core's MainWorker
 * driving the timer: it alone starts timers, and it stops them when a client answers. */
module Pairing {
  import opened Wrappers
  import opened HardwareHandlers
  import opened CommandPipeline
  import A = BluetoothAgents
  import T = TimerProtocol

  /** History: a device address and the time at which core dealt with it. */
  datatype Start = Start(address: string, at: int)

  datatype System = System(
    pipe: CommandPipeline.System,
    agent: A.Agent,
    toCore: seq<string>,            // BTDEVICE_REQUEST_CONFIRMATION_NOTI on the channel
    timer: T.System,
    timerIdMap: map<string, int>,
    confirms: seq<string>,          // history: confirmation notifications core handled
    starts: seq<Start>,             // history: by timer instance
    ids: seq<int>,                  // history: by timer instance, once inserted
    last: map<string, nat>,         // history: the newest inserted instance of an address
    timedOut: seq<Start>)           // history: the timeout rejections core sent, and when

  datatype Action =
    | ClientSays(m: ClientMessage)
    | BluezCalls(path: Option<string>)
    | AgentReleased
    | NotiArrives
    | OtherEvent
    | CoreStep
    | StartStep                     // core's MainWorker inside startTimer
    | TimerStep(a: T.Action)        // the timer thread, or time passing
    | Transmit
    | HwStep

  function Init(): System {
    System.System(CommandPipeline.Init(), A.Fresh(), [], T.Init(), map[], [], [], [], map[], [])
  }

  /** What core's MainWorker does besides sending frames. */
  ghost function CoreHandles(s: System, e: CoreEvent): System
  {
    match e
    case FromClient(what) =>
      if (what.op == ACCEPT || what.op == REJECT) && what.address in s.timerIdMap then
        s.(timer := T.Apply(s.timer, T.Stop(s.timerIdMap[what.address])), timerIdMap := s.timerIdMap - {what.address})
      else s
    case Timeout(address) => s.(timedOut := s.timedOut + [Start(address, s.timer.now)])
    case Confirm(address) =>
      var t := T.Apply(s.timer, T.Choose(TIMEOUT_REQUEST_CONFIRMATION_MS, address));
      s.(timer := t, confirms := s.confirms + [address],
         starts := if t.starter == T.Idle then s.starts else s.starts + [Start(address, s.timer.now)])
    case Unrelated => s
  }

  ghost function Starts(s: System): System
  {
    match s.timer.starter
    case Idle => s
    case Chosen(_, _, _) => s.(timer := T.Apply(s.timer, T.Stamp))
    case Made(id, _, address) =>
      s.(timer := T.Apply(s.timer, T.Put), timerIdMap := s.timerIdMap[address := id],
         ids := s.ids + [id], last := s.last[address := s.timer.started])
  }

  predicate OfTimerThread(a: T.Action) {
    a.Tick? || a.ReadClock? || a.Extract? || a.Push? || a.Doze? || a.Sleep? || a.Wake?
  }

  function AgentDoes(agent: A.Agent, what: DeviceOp): A.Agent {
    if what.op == ACCEPT then A.OnConfirm(agent, what.address, true)
    else if what.op == REJECT then A.OnConfirm(agent, what.address, false)
    else agent
  }

  ghost function Apply(s: System, a: Action): System
  {
    match a
    case ClientSays(m) => s.(pipe := CommandPipeline.Apply(s.pipe, CommandPipeline.ClientSays(m)))
    case BluezCalls(path) =>
      var address := A.AddressOf(path);
      s.(agent := A.OnRequest(s.agent, path), toCore := s.toCore + if address == "" then [] else [address])
    case AgentReleased => s.(agent := A.OnRelease(s.agent))
    case NotiArrives =>
      if s.toCore == [] then s
      else s.(toCore := s.toCore[1..], pipe := CommandPipeline.Apply(s.pipe, Enqueue(Confirm(s.toCore[0]))))
    case OtherEvent => s.(pipe := CommandPipeline.Apply(s.pipe, Enqueue(Unrelated)))
    case CoreStep =>
      if CoreBusy(s) then s
      else CoreHandles(s, s.pipe.coreQueue[0]).(pipe := CommandPipeline.Apply(s.pipe, CommandPipeline.CoreStep))
    case StartStep => Starts(s)
    case TimerStep(b) =>
      if !OfTimerThread(b) then s
      else
        var t := s.(timer := T.Apply(s.timer, b));
        if b == T.Push && s.timer.phase.Pushing? && s.timer.expired != [] then
          t.(pipe := CommandPipeline.Apply(s.pipe, Enqueue(Timeout(s.timer.expired[0].event))))
        else t
    case Transmit => s.(pipe := CommandPipeline.Apply(s.pipe, CommandPipeline.Transmit))
    case HwStep =>
      if s.pipe.hwQueue == [] then s
      else s.(pipe := CommandPipeline.Apply(s.pipe, CommandPipeline.HwStep),
              agent := AgentDoes(s.agent, s.pipe.hwQueue[0]))
  }

  ghost function Run(actions: seq<Action>): System
    decreases |actions|
  {
    if actions == [] then Init() else Apply(Run(actions[..|actions| - 1]), actions[|actions| - 1])
  }

  // ---------------------------------------------------------------- the parts keep their invariants

  predicate CoreBusy(s: System) {
    s.timer.starter != T.Idle || s.pipe.coreQueue == []
  }

  /** The pipeline action in an action of the system. */
  ghost function PipeAction(s: System, a: Action): Option<CommandPipeline.Action>
  {
    match a
    case ClientSays(m) => Some(CommandPipeline.ClientSays(m))
    case NotiArrives => if s.toCore == [] then None else Some(Enqueue(Confirm(s.toCore[0])))
    case OtherEvent => Some(Enqueue(Unrelated))
    case CoreStep => if CoreBusy(s) then None else Some(CommandPipeline.CoreStep)
    case TimerStep(b) =>
      if b == T.Push && s.timer.phase.Pushing? && s.timer.expired != [] then
        Some(Enqueue(Timeout(s.timer.expired[0].event)))
      else None
    case Transmit => Some(CommandPipeline.Transmit)
    case HwStep => Some(CommandPipeline.HwStep)
    case _ => None
  }

  /** The timer action in it. */
  ghost function TimerAction(s: System, a: Action): Option<T.Action>
  {
    match a
    case CoreStep =>
      if CoreBusy(s) then None
      else (match s.pipe.coreQueue[0]
            case FromClient(what) =>
              if (what.op == ACCEPT || what.op == REJECT) && what.address in s.timerIdMap then
                Some(T.Stop(s.timerIdMap[what.address]))
              else None
            case Confirm(address) => Some(T.Choose(TIMEOUT_REQUEST_CONFIRMATION_MS, address))
            case _ => None)
    case StartStep =>
      (match s.timer.starter
       case Idle => None
       case Chosen(_, _, _) => Some(T.Stamp)
       case Made(_, _, _) => Some(T.Put))
    case TimerStep(b) => if OfTimerThread(b) then Some(b) else None
    case _ => None
  }

  /** And the agent action. */
  function AgentAction(s: System, a: Action): Option<A.Action>
  {
    match a
    case BluezCalls(path) => Some(A.Request(path))
    case AgentReleased => Some(A.Release)
    case HwStep =>
      if s.pipe.hwQueue != [] && (s.pipe.hwQueue[0].op == ACCEPT || s.pipe.hwQueue[0].op == REJECT) then
        Some(A.Confirm(s.pipe.hwQueue[0].address, s.pipe.hwQueue[0].op == ACCEPT))
      else None
    case _ => None
  }

  /** Every action of the system is at most one action of each part. */
  lemma Projections(s: System, a: Action)
    ensures var t := Apply(s, a);
            && t.pipe == (match PipeAction(s, a) case None => s.pipe case Some(b) => CommandPipeline.Apply(s.pipe, b))
            && t.timer == (match TimerAction(s, a) case None => s.timer case Some(b) => T.Apply(s.timer, b))
            && t.agent == (match AgentAction(s, a) case None => s.agent case Some(b) => A.Apply(s.agent, b))
  {
  }

  lemma PartsKept(s: System, a: Action)
    requires CommandPipeline.Inv(s.pipe) && A.Inv(s.agent) && T.Inv(s.timer)
    ensures var t := Apply(s, a);
            CommandPipeline.Inv(t.pipe) && A.Inv(t.agent) && T.Inv(t.timer)
  {
    Projections(s, a);
    if PipeAction(s, a).Some? {
      CommandPipeline.StepKeepsInv(s.pipe, PipeAction(s, a).value);
    }
    if TimerAction(s, a).Some? {
      T.StepKeepsInv(s.timer, TimerAction(s, a).value);
    }
    if AgentAction(s, a).Some? {
      A.StepKeepsInv(s.agent, AgentAction(s, a).value);
    }
  }

  lemma {:induction false} RunKeepsParts(actions: seq<Action>)
    ensures var s := Run(actions);
            CommandPipeline.Inv(s.pipe) && A.Inv(s.agent) && T.Inv(s.timer)
    decreases |actions|
  {
    if actions == [] {
    } else {
      RunKeepsParts(actions[..|actions| - 1]);
      PartsKept(Run(actions[..|actions| - 1]), actions[|actions| - 1]);
    }
  }

  // ---------------------------------------------------------------- acceptances come from clients

  function Count(whats: seq<DeviceOp>, what: DeviceOp): nat
  {
    if whats == [] then 0 else (if whats[0] == what then 1 else 0) + Count(whats[1..], what)
  }

  /** METHOD_RETURN replies to RequestConfirmation calls of one device. */
  function Accepted(replies: seq<A.Reply>, address: string): nat
  {
    if replies == [] then 0
    else (if replies[0].ok && replies[0].address == address then 1 else 0) + Accepted(replies[1..], address)
  }

  lemma {:induction false} CountConcat(a: seq<DeviceOp>, b: seq<DeviceOp>, what: DeviceOp)
    ensures Count(a + b, what) == Count(a, what) + Count(b, what)
  {
    if a == [] {
      assert a + b == b;
    } else {
      assert (a + b)[1..] == a[1..] + b;
      CountConcat(a[1..], b, what);
    }
  }

  lemma {:induction false} AcceptedConcat(a: seq<A.Reply>, b: seq<A.Reply>, address: string)
    ensures Accepted(a + b, address) == Accepted(a, address) + Accepted(b, address)
  {
    if a == [] {
      assert a + b == b;
    } else {
      assert (a + b)[1..] == a[1..] + b;
      AcceptedConcat(a[1..], b, address);
    }
  }

  lemma {:induction false} CountTracked(whats: seq<DeviceOp>, what: DeviceOp)
    requires what.op != REJECT
    ensures Count(Tracked(whats), what) == Count(whats, what)
  {
    if whats == [] {
    } else {
      CountTracked(whats[1..], what);
      CountConcat(if whats[0].op == REJECT then [] else [whats[0]], Tracked(whats[1..]), what);
    }
  }

  lemma AgentAccepts(agent: A.Agent, b: A.Action, address: string)
    ensures Accepted(A.Apply(agent, b).replies, address) <=
      Accepted(agent.replies, address) + if b == A.Confirm(address, true) then 1 else 0
  {
    match b {
      case Request(path) => AcceptedConcat(agent.replies, [A.Reply(agent.requests, false, "")], address);
      case Confirm(x, ok) =>
        if x in agent.pending {
          AcceptedConcat(agent.replies, [A.Reply(agent.pending[x], ok, x)], address);
        }
      case Release =>
    }
  }

  lemma PipeExecutes(p: CommandPipeline.System, b: CommandPipeline.Action, what: DeviceOp)
    ensures Count(CommandPipeline.Apply(p, b).executed, what) ==
      Count(p.executed, what) + if b == CommandPipeline.HwStep && p.hwQueue != [] && p.hwQueue[0] == what then 1 else 0
  {
    if b == CommandPipeline.HwStep && p.hwQueue != [] {
      CountConcat(p.executed, [p.hwQueue[0]], what);
    }
  }

  lemma AcceptStep(s: System, a: Action, address: string)
    requires Accepted(s.agent.replies, address) <= Count(s.pipe.executed, DeviceOp(ACCEPT, address))
    ensures Accepted(Apply(s, a).agent.replies, address) <= Count(Apply(s, a).pipe.executed, DeviceOp(ACCEPT, address))
  {
    Projections(s, a);
    if AgentAction(s, a).Some? {
      AgentAccepts(s.agent, AgentAction(s, a).value, address);
    }
    if PipeAction(s, a).Some? {
      PipeExecutes(s.pipe, PipeAction(s, a).value, DeviceOp(ACCEPT, address));
    }
  }

  lemma {:induction false} AcceptedWereExecuted(actions: seq<Action>, address: string)
    ensures var s := Run(actions);
            Accepted(s.agent.replies, address) <= Count(s.pipe.executed, DeviceOp(ACCEPT, address))
    decreases |actions|
  {
    if actions == [] {
    } else {
      AcceptedWereExecuted(actions[..|actions| - 1], address);
      AcceptStep(Run(actions[..|actions| - 1]), actions[|actions| - 1], address);
    }
  }

  /** What the clients' messages in a run ask for, in order. */
  function AskedBy(actions: seq<Action>): seq<DeviceOp>
    decreases |actions|
  {
    if actions == [] then []
    else
      var last := actions[|actions| - 1];
      AskedBy(actions[..|actions| - 1]) + if last.ClientSays? then Asked(last.m) else []
  }

  lemma {:induction false} IssuedIsAskedBy(actions: seq<Action>)
    ensures Run(actions).pipe.issued == AskedBy(actions)
    decreases |actions|
  {
    if actions == [] {
    } else {
      var before := actions[..|actions| - 1];
      var a := actions[|actions| - 1];
      IssuedIsAskedBy(before);
      Projections(Run(before), a);
      if a.ClientSays? {
        MessageMeans(a.m);
      }
    }
  }

  /** End-to-end acceptance: for every device, its requests that were accepted plus the accepts still
      under way never exceed the accepts that clients' messages ask for, whatever the timeouts do. A
      message counts for the device its address names up to the first NUL. */
  lemma AcceptancesComeFromClients(actions: seq<Action>, address: string)
    ensures var s := Run(actions);
            var accept := DeviceOp(ACCEPT, address);
            Accepted(s.agent.replies, address) + Count(s.pipe.hwQueue, accept)
              + Count(InChannel(s.pipe.channel), accept) + Count(Seen(InCore(s.pipe.coreQueue)), accept)
              <= Count(Seen(AskedBy(actions)), accept)
  {
    var p := Run(actions).pipe;
    var accept := DeviceOp(ACCEPT, address);
    RunKeepsParts(actions);
    IssuedIsAskedBy(actions);
    AcceptedWereExecuted(actions, address);
    CountConcat(p.executed, p.hwQueue, accept);
    CountConcat(p.executed + p.hwQueue, InChannel(p.channel), accept);
    CountConcat(p.executed + p.hwQueue + InChannel(p.channel), Seen(InCore(p.coreQueue)), accept);
    SeenTracked(p.entered);
    SeenTracked(p.issued);
    CountTracked(Seen(p.entered), accept);
    CountTracked(Seen(p.issued), accept);
  }
}
