/** The recording protocol between the core manager and the record manager, as a transition system.
 *
 * Client commands enter core's event queue; commands travel core -> D-Bus -> the record manager's
 * queue -> its MainWorker; notifications travel back over D-Bus through core's receiver thread into
 * core's queue. All channels are FIFO; threads interleave step by step. An action whose thread has
 * nothing to do changes nothing, so every sequence of actions is a run. */
module RecordProtocol {
  import opened RecordHandlers
  import opened RecordWorkers

  datatype CoreEvent = FromClient(cmd: Command) | FromRecorder(noti: Noti) | Insert(session: nat)

  datatype RecEvent = Do(cmd: Command) | Filter(session: nat)

  /** What happened so far; no step depends on it. */
  datatype History = History(
    armedInGap: bool,          // state_ == RECORDING was stored between a final notification and the reset
    lostStart: bool,           // the last such store was overwritten by the reset
    ended: map<nat, Noti>,     // final notification of each closed session
    filterFailed: multiset<nat>,
    inserted: multiset<nat>)   // INSERT_WAV_FILE events handled by core

  datatype System = System(
    core: RecordState,
    coreQueue: seq<CoreEvent>,
    receiving: seq<Noti>,      // taken off the channel by core's receiver, not pushed yet
    notiChannel: seq<Noti>,
    cmdChannel: seq<Command>,
    recQueue: seq<RecEvent>,
    worker: Worker,
    filters: multiset<nat>,    // filter threads running
    history: History)

  datatype Action =
    | ClientSends(cmd: Command)
    | CoreStep
    | Receive
    | Deliver
    | CommandArrives
    | Take                     // the record manager's MainWorker pops an event
    | CommandStep              // and runs one step of the command it is in
    | WorkerStep(o: Oracle)
    | FilterDone(session: nat, ok: bool)

  function Init(): System {
    System(STOPPED, [], [], [], [], [], Start(), multiset{},
           History(false, false, map[], multiset{}, multiset{}))
  }

  function HandleCore(s: System, e: CoreEvent): System
  {
    match e
    case FromClient(cmd) =>
      var (c, sent) := OnCommand(s.core, cmd);
      s.(core := c, cmdChannel := s.cmdChannel + sent)
    case FromRecorder(n) => s.(core := OnNoti(s.core, n))
    case Insert(k) => s.(history := s.history.(inserted := s.history.inserted + multiset{k}))
  }

  function CommandHistory(s: System): History {
    if s.worker.main != Arming then s.history
    else s.history.(armedInGap := InGap(s.worker), lostStart := false)
  }

  function WorkerHistory(s: System, out: Output): History
  {
    var h := s.history;
    if s.worker.phase == Resetting then
      h.(armedInGap := false, lostStart := h.lostStart || (h.armedInGap && s.worker.state == State.RECORDING))
    else if s.worker.phase.Reporting? && Open(s.worker) then
      h.(ended := h.ended[s.worker.session := s.worker.phase.noti])
    else h
  }

  function Filters(ks: seq<nat>): seq<RecEvent>
  {
    if ks == [] then [] else [Filter(ks[0])] + Filters(ks[1..])
  }

  function Apply(s: System, a: Action): System
  {
    match a
    case ClientSends(cmd) => s.(coreQueue := s.coreQueue + [FromClient(cmd)])
    case CoreStep =>
      if s.coreQueue == [] then s else HandleCore(s.(coreQueue := s.coreQueue[1..]), s.coreQueue[0])
    case Receive =>
      if s.receiving != [] || s.notiChannel == [] then s
      else
        var n := s.notiChannel[0];
        s.(receiving := [n], notiChannel := s.notiChannel[1..],
           coreQueue := s.coreQueue + if n.kind == FILTER_NOTI && n.ok then [Insert(n.session)] else [])
    case Deliver =>
      if s.receiving == [] then s
      else s.(receiving := s.receiving[1..], coreQueue := s.coreQueue + [FromRecorder(s.receiving[0])])
    case CommandArrives =>
      if s.cmdChannel == [] then s
      else s.(cmdChannel := s.cmdChannel[1..], recQueue := s.recQueue + [Do(s.cmdChannel[0])])
    case Take =>
      if s.worker.main != Ready || s.recQueue == [] then s
      else
        var rest := s.(recQueue := s.recQueue[1..]);
        (match s.recQueue[0]
         case Do(cmd) => rest.(worker := s.worker.(main := Handling(cmd)))
         case Filter(k) => rest.(filters := s.filters + multiset{k}))
    case CommandStep =>
      var (w, out) := MainStep(s.worker);
      s.(worker := w, notiChannel := s.notiChannel + out.notis, history := CommandHistory(s))
    case WorkerStep(o) =>
      var (w, out) := ThreadStep(s.worker, o);
      s.(worker := w, notiChannel := s.notiChannel + out.notis, recQueue := s.recQueue + Filters(out.queued),
         history := WorkerHistory(s, out))
    case FilterDone(k, ok) =>
      if k !in s.filters then s
      else
        var h := s.history;
        s.(filters := s.filters - multiset{k}, notiChannel := s.notiChannel + [Noti(FILTER_NOTI, ok, k)],
           history := if ok then h else h.(filterFailed := h.filterFailed + multiset{k}))
  }

  function Run(actions: seq<Action>): System
    decreases |actions|
  {
    if actions == [] then Init() else Apply(Run(actions[..|actions| - 1]), actions[|actions| - 1])
  }

  // ---------------------------------------------------------------- what is in flight

  function Notis(q: seq<CoreEvent>): seq<Noti>
  {
    if q == [] then [] else (if q[0].FromRecorder? then [q[0].noti] else []) + Notis(q[1..])
  }

  function Queued(q: seq<RecEvent>): seq<Command>
  {
    if q == [] then [] else (if q[0].Do? then [q[0].cmd] else []) + Queued(q[1..])
  }

  /** Notifications sent and not yet handled by core, oldest first. */
  function InFlight(s: System): seq<Noti> {
    Notis(s.coreQueue) + s.receiving + s.notiChannel
  }

  function Pending(s: System): seq<Noti> {
    Verdicts(InFlight(s))
  }

  /** Commands sent and not yet taken by the record manager's MainWorker, oldest first. */
  function Commands(s: System): seq<Command> {
    Queued(s.recQueue) + s.cmdChannel
  }

  /** The state core will be in once it has handled everything in flight. */
  function Eventually(s: System): RecordState {
    Settled(s.core, Pending(s))
  }

  lemma {:induction false} NotisConcat(a: seq<CoreEvent>, b: seq<CoreEvent>)
    ensures Notis(a + b) == Notis(a) + Notis(b)
  {
    if a == [] {
      assert a + b == b;
    } else {
      assert (a + b)[1..] == a[1..] + b;
      NotisConcat(a[1..], b);
      var first := if a[0].FromRecorder? then [a[0].noti] else [];
      assert first + Notis(a[1..]) + Notis(b) == first + (Notis(a[1..]) + Notis(b));
    }
  }

  lemma {:induction false} QueuedConcat(a: seq<RecEvent>, b: seq<RecEvent>)
    ensures Queued(a + b) == Queued(a) + Queued(b)
  {
    if a == [] {
      assert a + b == b;
    } else {
      assert (a + b)[1..] == a[1..] + b;
      QueuedConcat(a[1..], b);
      var first := if a[0].Do? then [a[0].cmd] else [];
      assert first + Queued(a[1..]) + Queued(b) == first + (Queued(a[1..]) + Queued(b));
    }
  }

  // ---------------------------------------------------------------- how a step moves them

  /** The notifications one action sends. */
  function Sends(s: System, a: Action): seq<Noti>
  {
    match a
    case CommandStep => MainStep(s.worker).1.notis
    case WorkerStep(o) => ThreadStep(s.worker, o).1.notis
    case FilterDone(k, ok) => if k in s.filters then [Noti(FILTER_NOTI, ok, k)] else []
    case _ => []
  }

  predicate CoreHears(s: System, a: Action) {
    a == CoreStep && s.coreQueue != [] && s.coreQueue[0].FromRecorder?
  }

  lemma CoreStepMoves(s: System)
    requires s.coreQueue != []
    ensures var t := Apply(s, CoreStep);
            if s.coreQueue[0].FromRecorder? then InFlight(s) == [s.coreQueue[0].noti] + InFlight(t)
            else InFlight(t) == InFlight(s)
  {
    var t := Apply(s, CoreStep);
    assert t.coreQueue == s.coreQueue[1..] && t.receiving == s.receiving && t.notiChannel == s.notiChannel;
    if s.coreQueue[0].FromRecorder? {
      assert Notis(s.coreQueue) == [s.coreQueue[0].noti] + Notis(t.coreQueue);
    } else {
      assert Notis(s.coreQueue) == [] + Notis(t.coreQueue);
    }
  }

  lemma ReceiveMoves(s: System)
    ensures InFlight(Apply(s, Receive)) == InFlight(s)
  {
    if s.receiving == [] && s.notiChannel != [] {
      var n := s.notiChannel[0];
      var more := if n.kind == FILTER_NOTI && n.ok then [Insert(n.session)] else [];
      NotisConcat(s.coreQueue, more);
      assert Notis(more) == [];
      assert s.notiChannel == [n] + s.notiChannel[1..];
    }
  }

  lemma DeliverMoves(s: System)
    ensures InFlight(Apply(s, Deliver)) == InFlight(s)
  {
    if s.receiving != [] {
      var e := FromRecorder(s.receiving[0]);
      var t := Apply(s, Deliver);
      assert t.coreQueue == s.coreQueue + [e] && t.receiving == s.receiving[1..] && t.notiChannel == s.notiChannel;
      NotisConcat(s.coreQueue, [e]);
      assert Notis([e]) == [s.receiving[0]];
      assert s.receiving == [s.receiving[0]] + s.receiving[1..];
    }
  }

  lemma ClientMoves(s: System, cmd: Command)
    ensures InFlight(Apply(s, ClientSends(cmd))) == InFlight(s)
  {
    NotisConcat(s.coreQueue, [FromClient(cmd)]);
    assert Notis([FromClient(cmd)]) == [];
  }

  lemma InFlightMoves(s: System, a: Action)
    ensures CoreHears(s, a) ==>
      && InFlight(s) == [s.coreQueue[0].noti] + InFlight(Apply(s, a))
      && Apply(s, a).core == OnNoti(s.core, s.coreQueue[0].noti)
    ensures !CoreHears(s, a) ==> InFlight(Apply(s, a)) == InFlight(s) + Sends(s, a)
  {
    match a {
      case ClientSends(cmd) => ClientMoves(s, cmd);
      case CoreStep => if s.coreQueue != [] { CoreStepMoves(s); }
      case Receive => ReceiveMoves(s);
      case Deliver => DeliverMoves(s);
      case _ =>
        assert Apply(s, a).coreQueue == s.coreQueue && Apply(s, a).receiving == s.receiving;
        assert Apply(s, a).notiChannel == s.notiChannel + Sends(s, a);
    }
  }

  lemma PendingMoves(s: System, a: Action)
    ensures CoreHears(s, a) ==>
      var n := s.coreQueue[0].noti;
      Pending(s) == (if IsVerdict(n) then [n] else []) + Pending(Apply(s, a))
    ensures !CoreHears(s, a) ==> Pending(Apply(s, a)) == Pending(s) + Verdicts(Sends(s, a))
  {
    InFlightMoves(s, a);
    if !CoreHears(s, a) {
      VerdictsConcat(InFlight(s), Sends(s, a));
    }
  }

  predicate TakesCommand(s: System, a: Action) {
    a == Take && s.worker.main == Ready && s.recQueue != [] && s.recQueue[0].Do?
  }

  /** The commands that core sends in one action. */
  function Orders(s: System, a: Action): seq<Command> {
    if a != CoreStep || s.coreQueue == [] || !s.coreQueue[0].FromClient? then []
    else OnCommand(s.core, s.coreQueue[0].cmd).1
  }

  lemma TakeMoves(s: System)
    ensures if TakesCommand(s, Take) then Commands(s) == [s.recQueue[0].cmd] + Commands(Apply(s, Take))
            else Commands(Apply(s, Take)) == Commands(s)
  {
    var t := Apply(s, Take);
    assert t.cmdChannel == s.cmdChannel;
    if s.worker.main == Ready && s.recQueue != [] {
      assert t.recQueue == s.recQueue[1..];
      assert Queued(s.recQueue) == (if s.recQueue[0].Do? then [s.recQueue[0].cmd] else []) + Queued(t.recQueue);
    }
  }

  lemma ArrivalMoves(s: System)
    ensures Commands(Apply(s, CommandArrives)) == Commands(s)
  {
    if s.cmdChannel != [] {
      QueuedConcat(s.recQueue, [Do(s.cmdChannel[0])]);
      assert Queued([Do(s.cmdChannel[0])]) == [s.cmdChannel[0]];
      assert s.cmdChannel == [s.cmdChannel[0]] + s.cmdChannel[1..];
    }
  }

  lemma QueueingMoves(s: System, o: Oracle)
    ensures Commands(Apply(s, WorkerStep(o))) == Commands(s)
  {
    var queued := ThreadStep(s.worker, o).1.queued;
    var t := Apply(s, WorkerStep(o));
    assert t.recQueue == s.recQueue + Filters(queued) && t.cmdChannel == s.cmdChannel;
    QueuedConcat(s.recQueue, Filters(queued));
    assert queued == [] || queued == [s.worker.session];
    assert Filters(queued) == [] || Filters(queued) == [Filter(s.worker.session)];
    assert Queued(Filters(queued)) == [];
  }

  lemma OrdersMove(s: System)
    ensures Commands(Apply(s, CoreStep)) == Commands(s) + Orders(s, CoreStep)
  {
    var t := Apply(s, CoreStep);
    assert t.recQueue == s.recQueue && t.cmdChannel == s.cmdChannel + Orders(s, CoreStep);
  }

  /** The commands one action sends or takes. */
  lemma CommandsMove(s: System, a: Action)
    ensures if TakesCommand(s, a) then Commands(s) == [s.recQueue[0].cmd] + Commands(Apply(s, a))
            else Commands(Apply(s, a)) == Commands(s) + Orders(s, a)
  {
    match a {
      case CoreStep => OrdersMove(s);
      case Take => TakeMoves(s);
      case CommandArrives => ArrivalMoves(s);
      case WorkerStep(o) => QueueingMoves(s, o);
      case _ => assert Apply(s, a).recQueue == s.recQueue && Apply(s, a).cmdChannel == s.cmdChannel;
    }
  }
}
