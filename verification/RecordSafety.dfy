/** What every run of the recording protocol keeps: no phantom recording, no lost command unless a
 * START is stored in the finishing gap, and what happens when one is. */
module RecordSafety {
  import opened RecordHandlers
  import opened RecordWorkers
  import opened RecordProtocol

  /** Core waits for an answer. Where the START it waits for is, when no session is open. */
  ghost predicate Answerable(w: Worker, cmds: seq<Command>, armedInGap: bool, lostStart: bool)
  {
    if cmds != [] then cmds[|cmds| - 1] == START
    else if w.main != Ready then
      w.main == Handling(START) || w.main == Clearing || w.main == Arming || w.main == Rejecting(START)
    else
      || (w.phase == Waiting && w.state == State.RECORDING)
      || w.phase == Opening || w.phase == Opened || w.phase.Reporting?
      || (InGap(w) && w.state == State.RECORDING && armedInGap)
      || lostStart
  }

  ghost predicate Sound(w: Worker, cmds: seq<Command>, armedInGap: bool, lostStart: bool, eventually: RecordState)
  {
    && WellFormed(w)
    && (armedInGap ==> InGap(w))
    && (lostStart ==> w.phase == Waiting && w.state == IDLE)
    && (eventually == RecordState.RECORDING ==> Open(w))
    && (eventually == PROCESSING && !Open(w) ==> Answerable(w, cmds, armedInGap, lostStart))
  }

  ghost predicate Inv(s: System) {
    Sound(s.worker, Commands(s), s.history.armedInGap, s.history.lostStart, Eventually(s))
  }

  /** A verdict does not depend on the state it meets. */
  lemma SettledConcat(c: RecordState, d: RecordState, vs: seq<Noti>, ws: seq<Noti>)
    requires forall i | 0 <= i < |ws| :: IsVerdict(ws[i])
    ensures Settled(c, vs + ws) == Settled(Settled(c, vs), ws)
    ensures ws != [] ==> Settled(d, ws) == Settled(c, ws)
  {
    if ws == [] {
      assert vs + ws == vs;
    } else {
      assert (vs + ws)[|vs + ws| - 1] == ws[|ws| - 1];
      assert IsVerdict(ws[|ws| - 1]);
    }
  }

  lemma EventuallyMoves(s: System, a: Action)
    ensures var t := Apply(s, a);
            Eventually(t) ==
              if a == CoreStep && s.coreQueue != [] && s.coreQueue[0].FromClient? && Pending(s) == [] then t.core
              else Settled(Eventually(s), Verdicts(Sends(s, a)))
  {
    var t := Apply(s, a);
    PendingMoves(s, a);
    AllVerdicts(InFlight(s));
    AllVerdicts(InFlight(t));
    AllVerdicts(Sends(s, a));
    if CoreHears(s, a) {
      InFlightMoves(s, a);
      var n := s.coreQueue[0].noti;
      assert Verdicts(Sends(s, a)) == [];
      SettledConcat(s.core, t.core, if IsVerdict(n) then [n] else [], Pending(t));
    } else if t.core == s.core {
      SettledConcat(s.core, t.core, Pending(s), Verdicts(Sends(s, a)));
    } else {
      assert a == CoreStep && Sends(s, a) == [] && Verdicts(Sends(s, a)) == [];
      assert Pending(t) == Pending(s);
      SettledConcat(s.core, t.core, [], Pending(s));
    }
  }

  lemma CommandMeetsNothing(s: System)
    requires s.coreQueue != [] && s.coreQueue[0].FromClient? && Pending(s) == []
    ensures var t := Apply(s, CoreStep);
            Eventually(s) == s.core && Eventually(t) == OnCommand(s.core, s.coreQueue[0].cmd).0
  {
    EventuallyMoves(s, CoreStep);
  }

  lemma CommandMeetsVerdict(s: System)
    requires s.coreQueue != [] && s.coreQueue[0].FromClient? && Pending(s) != []
    ensures Eventually(Apply(s, CoreStep)) == Eventually(s) && Eventually(s) != PROCESSING
  {
    EventuallyMoves(s, CoreStep);
    AllVerdicts(InFlight(s));
    assert IsVerdict(Pending(s)[|Pending(s)| - 1]);
  }

  lemma CoreHandlesCommand(s: System)
    requires s.coreQueue != [] && s.coreQueue[0].FromClient?
    ensures var t := Apply(s, CoreStep);
            || (Eventually(t) == Eventually(s) && Orders(s, CoreStep) == [])
            || (Eventually(t) == Eventually(s) && Eventually(s) != PROCESSING)
            || (Eventually(s) == STOPPED && Eventually(t) == PROCESSING && Orders(s, CoreStep) == [START])
            || (Eventually(s) == RecordState.RECORDING && Eventually(t) == PROCESSING)
  {
    if Pending(s) == [] {
      CommandMeetsNothing(s);
    } else {
      CommandMeetsVerdict(s);
    }
  }

  /** A client command is the only thing core handles that changes what is in flight. */
  lemma CoreStepFrame(s: System)
    ensures var t := Apply(s, CoreStep);
            && t.worker == s.worker
            && t.history.armedInGap == s.history.armedInGap && t.history.lostStart == s.history.lostStart
            && (|| (Eventually(t) == Eventually(s) && Commands(t) == Commands(s))
                || (Eventually(t) == Eventually(s) && Eventually(s) != PROCESSING)
                || (Eventually(s) == STOPPED && Eventually(t) == PROCESSING && Commands(t) == Commands(s) + [START])
                || (Eventually(s) == RecordState.RECORDING && Eventually(t) == PROCESSING))
  {
    CommandsMove(s, CoreStep);
    if s.coreQueue != [] && s.coreQueue[0].FromClient? {
      CoreHandlesCommand(s);
    } else {
      EventuallyMoves(s, CoreStep);
    }
  }

  /** Only a client command makes core wait, and only from the state it rests in. */
  lemma CoreStepKeeps(s: System)
    requires Inv(s)
    ensures Inv(Apply(s, CoreStep))
  {
    CoreStepFrame(s);
  }

  lemma MovesFrame(s: System, a: Action)
    requires a.ClientSends? || a == Receive || a == Deliver || a == CommandArrives || a.FilterDone?
    ensures var t := Apply(s, a);
            && Eventually(t) == Eventually(s) && Commands(t) == Commands(s) && t.worker == s.worker
            && t.history.lostStart == s.history.lostStart && t.history.armedInGap == s.history.armedInGap
  {
    EventuallyMoves(s, a);
    CommandsMove(s, a);
    assert Verdicts(Sends(s, a)) == [];
  }

  /** Moving messages along changes neither what is in flight nor the worker. */
  lemma MovesKeep(s: System, a: Action)
    requires Inv(s)
    requires a.ClientSends? || a == Receive || a == Deliver || a == CommandArrives || a.FilterDone?
    ensures Inv(Apply(s, a))
  {
    MovesFrame(s, a);
  }

  lemma TakeKeeps(s: System)
    requires Inv(s)
    ensures Inv(Apply(s, Take))
  {
    var t := Apply(s, Take);
    EventuallyMoves(s, Take);
    CommandsMove(s, Take);
    assert Eventually(t) == Eventually(s);
    assert t.history == s.history;
    if s.worker.main == Ready && s.recQueue != [] && s.recQueue[0].Do? {
      assert t.worker == s.worker.(main := Handling(s.recQueue[0].cmd));
    } else {
      assert Commands(t) == Commands(s);
      assert t.worker == s.worker;
    }
  }

  lemma CommandEventually(s: System)
    ensures Eventually(Apply(s, CommandStep)) == if s.worker.main.Rejecting? then STOPPED else Eventually(s)
  {
    EventuallyMoves(s, CommandStep);
    if s.worker.main.Rejecting? {
      assert Verdicts(Sends(s, CommandStep)) == Sends(s, CommandStep);
    }
  }

  /** Without its messages, a step of the MainWorker only moves it and the worker's variables. */
  lemma CommandStepFrame(s: System)
    ensures var t := Apply(s, CommandStep);
            && Commands(t) == Commands(s) && t.worker == MainStep(s.worker).0 && t.worker.phase == s.worker.phase
            && t.history == CommandHistory(s)
            && Eventually(t) == if s.worker.main.Rejecting? then STOPPED else Eventually(s)
  {
    CommandEventually(s);
    CommandsMove(s, CommandStep);
  }

  lemma MainKeepsSound(w: Worker, cmds: seq<Command>, armedInGap: bool, lostStart: bool, eventually: RecordState)
    requires Sound(w, cmds, armedInGap, lostStart, eventually)
    ensures Sound(MainStep(w).0, cmds, if w.main == Arming then InGap(w) else armedInGap, w.main != Arming && lostStart,
                  if w.main.Rejecting? then STOPPED else eventually)
  {
  }

  lemma CommandStepKeeps(s: System)
    requires Inv(s)
    ensures Inv(Apply(s, CommandStep))
  {
    CommandStepFrame(s);
    MainKeepsSound(s.worker, Commands(s), s.history.armedInGap, s.history.lostStart, Eventually(s));
  }

  lemma WorkerEventually(s: System, o: Oracle)
    requires WellFormed(s.worker)
    ensures Eventually(Apply(s, WorkerStep(o))) ==
      if s.worker.phase == Opened then RecordState.RECORDING
      else if s.worker.phase.Reporting? then STOPPED
      else Eventually(s)
  {
    EventuallyMoves(s, WorkerStep(o));
    var ns := Sends(s, WorkerStep(o));
    if s.worker.phase == Opened || s.worker.phase.Reporting? {
      assert |ns| == 1 && IsVerdict(ns[0]);
      assert Verdicts(ns) == ns;
    } else {
      assert ns == [];
    }
  }

  lemma WorkerStepFrame(s: System, o: Oracle)
    ensures var t := Apply(s, WorkerStep(o));
            && Commands(t) == Commands(s) && t.worker == ThreadStep(s.worker, o).0
            && t.history == WorkerHistory(s, ThreadStep(s.worker, o).1)
  {
    CommandsMove(s, WorkerStep(o));
  }

  lemma ThreadKeepsSound(w: Worker, o: Oracle, cmds: seq<Command>, armedInGap: bool, lostStart: bool,
                         eventually: RecordState)
    requires Sound(w, cmds, armedInGap, lostStart, eventually)
    ensures Sound(ThreadStep(w, o).0, cmds, w.phase != Resetting && armedInGap,
                  lostStart || (w.phase == Resetting && armedInGap && w.state == State.RECORDING),
                  if w.phase == Opened then RecordState.RECORDING
                  else if w.phase.Reporting? then STOPPED
                  else eventually)
  {
  }

  lemma WorkerStepKeeps(s: System, o: Oracle)
    requires Inv(s)
    ensures Inv(Apply(s, WorkerStep(o)))
  {
    WorkerStepFrame(s, o);
    WorkerEventually(s, o);
    ThreadKeepsSound(s.worker, o, Commands(s), s.history.armedInGap, s.history.lostStart, Eventually(s));
  }

  lemma StepKeepsInv(s: System, a: Action)
    requires Inv(s)
    ensures Inv(Apply(s, a))
  {
    match a {
      case CoreStep => CoreStepKeeps(s);
      case Take => TakeKeeps(s);
      case CommandStep => CommandStepKeeps(s);
      case WorkerStep(o) => WorkerStepKeeps(s, o);
      case _ => MovesKeep(s, a);
    }
  }

  lemma {:induction false} RunKeepsInv(actions: seq<Action>)
    ensures Inv(Run(actions))
    decreases |actions|
  {
    if actions == [] {
    } else {
      RunKeepsInv(actions[..|actions| - 1]);
      StepKeepsInv(Run(actions[..|actions| - 1]), actions[|actions| - 1]);
    }
  }

  /** No phantom recording. In every reachable state without an open session, replaying everything in
      flight onto core's state does not leave it RECORDING. */
  lemma NoPhantomRecording(actions: seq<Action>)
    requires !Open(Run(actions).worker)
    ensures Replay(Run(actions).core, InFlight(Run(actions))) != RecordState.RECORDING
  {
    RunKeepsInv(actions);
    ReplaySettles(Run(actions).core, InFlight(Run(actions)));
  }

  /** Nothing is under way: no command or verdict in a channel or queue, the MainWorker is ready, and
      the RecordWorker waits with state_ == IDLE. */
  predicate Quiescent(s: System) {
    && Commands(s) == [] && Pending(s) == []
    && s.worker.main == Ready && s.worker.phase == Waiting && s.worker.state == IDLE
  }

  /** Core waits for an answer that nothing will send. */
  predicate Stuck(s: System) {
    Quiescent(s) && s.core == PROCESSING
  }

  lemma StuckAtCore(s: System)
    requires Stuck(s)
    ensures Stuck(Apply(s, CoreStep))
  {
    var t := Apply(s, CoreStep);
    PendingMoves(s, CoreStep);
    CommandsMove(s, CoreStep);
    assert t.worker == s.worker && Orders(s, CoreStep) == [];
    if CoreHears(s, CoreStep) {
      assert !IsVerdict(s.coreQueue[0].noti);
    }
    assert t.core == s.core;
  }

  lemma StuckAtTake(s: System)
    requires Stuck(s)
    ensures Stuck(Apply(s, Take))
  {
    PendingMoves(s, Take);
    TakeMoves(s);
    assert !TakesCommand(s, Take);
    assert Apply(s, Take).core == s.core && Apply(s, Take).worker == s.worker;
  }

  lemma StuckAtMoves(s: System, a: Action)
    requires Stuck(s)
    requires a.ClientSends? || a == Receive || a == Deliver || a == CommandArrives || a.FilterDone?
    ensures Stuck(Apply(s, a))
  {
    PendingMoves(s, a);
    assert Verdicts(Sends(s, a)) == [];
    CommandsMove(s, a);
    assert Apply(s, a).core == s.core && Apply(s, a).worker == s.worker;
  }

  lemma StuckStays(s: System, a: Action)
    requires Stuck(s)
    ensures Stuck(Apply(s, a))
  {
    match a {
      case CoreStep => StuckAtCore(s);
      case WorkerStep(o) => QuietWorkerStep(s, o);
      case Take => StuckAtTake(s);
      case CommandStep => assert Apply(s, CommandStep) == s;
      case _ => StuckAtMoves(s, a);
    }
  }

  ghost function Continue(s: System, actions: seq<Action>): System
    decreases |actions|
  {
    if actions == [] then s else Apply(Continue(s, actions[..|actions| - 1]), actions[|actions| - 1])
  }

  /** A stuck core stays stuck whatever the clients, the device and the scheduler do. */
  lemma {:induction false} StuckForever(s: System, actions: seq<Action>)
    requires Stuck(s)
    ensures Stuck(Continue(s, actions))
    decreases |actions|
  {
    if actions == [] {
    } else {
      StuckForever(s, actions[..|actions| - 1]);
      StuckStays(Continue(s, actions[..|actions| - 1]), actions[|actions| - 1]);
    }
  }

  /** The reset stores IDLE over a START that was stored after the final notification, and core waits
      for nothing else. */
  predicate Overwrites(s: System, a: Action) {
    && a.WorkerStep? && s.worker.phase == Resetting && s.worker.state == State.RECORDING && s.history.armedInGap
    && s.core == PROCESSING && Commands(s) == [] && Pending(s) == [] && s.worker.main == Ready
  }

  lemma StuckNotByCommandStep(s: System)
    requires Inv(s) && !Stuck(s)
    ensures !Stuck(Apply(s, CommandStep))
  {
    CommandStepFrame(s);
    CommandStepKeeps(s);
    PendingMoves(s, CommandStep);
  }

  lemma QuietWorkerStep(s: System, o: Oracle)
    requires s.worker.phase == Resetting || s.worker.phase == Waiting
    ensures var t := Apply(s, WorkerStep(o));
            && t.core == s.core && t.worker == ThreadStep(s.worker, o).0
            && Pending(t) == Pending(s) && Commands(t) == Commands(s)
  {
    var t := Apply(s, WorkerStep(o));
    assert Sends(s, WorkerStep(o)) == [];
    InFlightMoves(s, WorkerStep(o));
    assert InFlight(t) == InFlight(s);
    CommandsMove(s, WorkerStep(o));
  }

  /** Inv says where the START is that core waits for: stored in the gap. */
  lemma ResetFindsGapStart(s: System)
    requires Inv(s) && s.worker.phase == Resetting && s.worker.main == Ready
    requires s.core == PROCESSING && Commands(s) == [] && Pending(s) == []
    ensures s.worker.state == State.RECORDING && s.history.armedInGap
  {
    assert Eventually(s) == PROCESSING && !Open(s.worker);
  }

  lemma StuckByReset(s: System, o: Oracle)
    requires Inv(s) && s.worker.phase == Resetting
    ensures Stuck(Apply(s, WorkerStep(o))) <==> Overwrites(s, WorkerStep(o))
  {
    var t := Apply(s, WorkerStep(o));
    QuietWorkerStep(s, o);
    assert t.worker == s.worker.(state := IDLE, phase := Waiting);
    if Stuck(t) {
      ResetFindsGapStart(s);
    }
  }

  lemma StuckByWorkerStep(s: System, o: Oracle)
    requires Inv(s) && !Stuck(s)
    ensures Stuck(Apply(s, WorkerStep(o))) <==> Overwrites(s, WorkerStep(o))
  {
    var t := Apply(s, WorkerStep(o));
    if s.worker.phase == Resetting {
      StuckByReset(s, o);
    } else if s.worker.phase == Waiting {
      QuietWorkerStep(s, o);
      assert s.worker.state == IDLE ==> t.worker == s.worker;
    } else {
      assert t.worker.phase == ThreadStep(s.worker, o).0.phase != Waiting;
    }
  }

  lemma StuckNotByTake(s: System)
    requires !Stuck(s)
    ensures !Stuck(Apply(s, Take))
  {
    PendingMoves(s, Take);
    CommandsMove(s, Take);
    if TakesCommand(s, Take) {
      assert Apply(s, Take).worker.main == Handling(s.recQueue[0].cmd);
    } else {
      assert Apply(s, Take).worker == s.worker && Apply(s, Take).core == s.core;
    }
  }

  lemma StuckNotByCore(s: System)
    requires !Stuck(s)
    ensures !Stuck(Apply(s, CoreStep))
  {
    PendingMoves(s, CoreStep);
    CommandsMove(s, CoreStep);
    var t := Apply(s, CoreStep);
    assert t.worker == s.worker;
    assert t.core == s.core || Orders(s, CoreStep) != [] || t.core != PROCESSING;
  }

  lemma StuckNotByMoves(s: System, a: Action)
    requires !Stuck(s)
    requires a.ClientSends? || a == Receive || a == Deliver || a == CommandArrives || a.FilterDone?
    ensures !Stuck(Apply(s, a))
  {
    PendingMoves(s, a);
    CommandsMove(s, a);
    assert Verdicts(Sends(s, a)) == [];
    assert Apply(s, a).worker == s.worker && Apply(s, a).core == s.core;
  }

  /** An overwriting reset is the only way into a stuck state, and it always leads there. */
  lemma StuckEnteredByOverwrite(s: System, a: Action)
    requires Inv(s) && !Stuck(s)
    ensures Stuck(Apply(s, a)) <==> Overwrites(s, a)
  {
    match a {
      case CommandStep => StuckNotByCommandStep(s);
      case WorkerStep(o) => StuckByWorkerStep(s, o);
      case Take => StuckNotByTake(s);
      case CoreStep => StuckNotByCore(s);
      case _ => StuckNotByMoves(s, a);
    }
  }

  ghost predicate StartOverwritten(actions: seq<Action>)
    decreases |actions|
  {
    actions != [] &&
    var before := actions[..|actions| - 1];
    StartOverwritten(before) || Overwrites(Run(before), actions[|actions| - 1])
  }

  lemma {:induction false} StuckIffOverwritten(actions: seq<Action>)
    ensures Stuck(Run(actions)) <==> StartOverwritten(actions)
    decreases |actions|
  {
    if actions == [] {
    } else {
      var before := actions[..|actions| - 1];
      StuckIffOverwritten(before);
      RunKeepsInv(before);
      if Stuck(Run(before)) {
        StuckStays(Run(before), actions[|actions| - 1]);
      } else {
        StuckEnteredByOverwrite(Run(before), actions[|actions| - 1]);
      }
    }
  }

  /** No command is lost, exactly: in every run, whatever raced, a quiescent system has core STOPPED if
      and only if no reset overwrote a START stored in the finishing gap. */
  lemma NoCommandLost(actions: seq<Action>)
    requires Quiescent(Run(actions))
    ensures Run(actions).core == STOPPED <==> !StartOverwritten(actions)
  {
    RunKeepsInv(actions);
    StuckIffOverwritten(actions);
  }

  /** The hypothesis in the terms of a run: no START is stored in the finishing gap. */
  ghost predicate NoStartInGap(actions: seq<Action>)
    decreases |actions|
  {
    actions == [] ||
    var before := actions[..|actions| - 1];
    NoStartInGap(before) &&
    !(actions[|actions| - 1] == CommandStep && Run(before).worker.main == Arming && InGap(Run(before).worker))
  }

  lemma StepLosesNone(s: System, a: Action)
    requires !s.history.armedInGap && !s.history.lostStart
    requires !(a == CommandStep && s.worker.main == Arming && InGap(s.worker))
    ensures !Apply(s, a).history.armedInGap && !Apply(s, a).history.lostStart
  {
    match a {
      case CommandStep => assert Apply(s, a).history == CommandHistory(s);
      case WorkerStep(o) => assert Apply(s, a).history == WorkerHistory(s, ThreadStep(s.worker, o).1);
      case _ =>
    }
  }

  lemma {:induction false} NoStartInGapLosesNone(actions: seq<Action>)
    requires NoStartInGap(actions)
    ensures !Run(actions).history.armedInGap && !Run(actions).history.lostStart
    decreases |actions|
  {
    if actions == [] {
    } else {
      NoStartInGapLosesNone(actions[..|actions| - 1]);
      StepLosesNone(Run(actions[..|actions| - 1]), actions[|actions| - 1]);
    }
  }

  lemma NoCommandLostWithoutGapStart(actions: seq<Action>)
    requires NoStartInGap(actions) && Quiescent(Run(actions))
    ensures Run(actions).core == STOPPED
  {
    NoStartInGapLosesNone(actions);
    RunKeepsInv(actions);
  }

  // ---------------------------------------------------------------- the lost START

  /** The gap loses the START it is given: if core waits for exactly the START that is about to be
      stored before the reset, the store and the reset leave core stuck. If the store comes after the
      reset, the session starts. */
  lemma GapStoreIsLost(s: System, o: Oracle)
    requires s.worker.main == Arming && s.worker.phase == Resetting
    requires s.core == PROCESSING && Commands(s) == [] && Pending(s) == []
    ensures Stuck(Apply(Apply(s, CommandStep), WorkerStep(o)))
    ensures var t := Apply(Apply(Apply(s, WorkerStep(o)), CommandStep), WorkerStep(o));
            t.worker.phase == Opening && !Stuck(t)
  {
    var t := Apply(s, CommandStep);
    PendingMoves(s, CommandStep);
    CommandsMove(s, CommandStep);
    PendingMoves(t, WorkerStep(o));
    CommandsMove(t, WorkerStep(o));
  }

  // ---------------------------------------------------------------- a run that loses a START

  /** One more action at the end of a run. */
  lemma OneMore(actions: seq<Action>, a: Action) returns (longer: seq<Action>, s: System)
    ensures longer == actions + [a]
    ensures s == Run(longer) == Apply(Run(actions), a)
  {
    longer := actions + [a];
    s := Run(longer);
    assert longer[..|longer| - 1] == actions;
  }

  /** A system at rest but for core's state, the worker and the history. */
  predicate Calm(s: System) {
    && s.coreQueue == [] && s.receiving == [] && s.notiChannel == [] && s.cmdChannel == [] && s.recQueue == []
    && s.worker.main == Ready
  }

  /** A client command reaches the record manager's MainWorker. */
  lemma Commanded(actions: seq<Action>, cmd: Command) returns (longer: seq<Action>, s: System)
    requires Calm(Run(actions)) && Run(actions).core == if cmd == START then STOPPED else RecordState.RECORDING
    ensures s == Run(longer)
    ensures s == Run(actions).(core := PROCESSING, worker := Run(actions).worker.(main := Handling(cmd)))
  {
    longer, s := OneMore(actions, ClientSends(cmd));
    longer, s := OneMore(longer, CoreStep);
    longer, s := OneMore(longer, CommandArrives);
    longer, s := OneMore(longer, Take);
  }

  /** The one notification on the channel reaches core. */
  lemma Notified(actions: seq<Action>, n: Noti) returns (longer: seq<Action>, s: System)
    requires IsVerdict(n)
    requires Run(actions).notiChannel == [n] && Calm(Run(actions).(notiChannel := []))
    ensures s == Run(longer) && s == Run(actions).(core := OnNoti(Run(actions).core, n), notiChannel := [])
  {
    longer, s := OneMore(actions, Receive);
    longer, s := OneMore(longer, Deliver);
    longer, s := OneMore(longer, CoreStep);
  }

  const ORACLE := Oracle(true, Continues, NoAudio)

  /** A first session starts: core is RECORDING and the worker captures. */
  lemma SessionStarts() returns (actions: seq<Action>, s: System)
    ensures s == Run(actions) && Calm(s) && s.core == RecordState.RECORDING
    ensures s.worker == Worker(State.RECORDING, false, Ready, Testing, 1)
  {
    actions, s := Commanded([], START);
    actions, s := OneMore(actions, CommandStep);
    actions, s := OneMore(actions, CommandStep);
    actions, s := OneMore(actions, CommandStep);
    actions, s := OneMore(actions, WorkerStep(ORACLE));
    actions, s := OneMore(actions, WorkerStep(ORACLE));
    actions, s := OneMore(actions, WorkerStep(ORACLE));
    actions, s := Notified(actions, Noti(START_NOTI, true, 1));
  }

  /** A STOP is taken while it captures. */
  lemma StopIsTaken() returns (actions: seq<Action>, s: System)
    ensures s == Run(actions) && Calm(s) && s.core == PROCESSING
    ensures s.worker == Worker(IDLE, false, Ready, Testing, 1)
  {
    actions, s := SessionStarts();
    actions, s := Commanded(actions, STOP);
    actions, s := OneMore(actions, CommandStep);
    actions, s := OneMore(actions, CommandStep);
  }

  /** The thread leaves the loop and finds no audio. */
  lemma SessionEnds() returns (actions: seq<Action>, s: System)
    ensures s == Run(actions) && Calm(s) && s.core == PROCESSING
    ensures s.worker == Worker(IDLE, false, Ready, Reporting(Noti(STOP_NOTI, false, 1)), 1)
  {
    actions, s := StopIsTaken();
    actions, s := OneMore(actions, WorkerStep(ORACLE));
    assert s.worker.phase == Ending(false);
    actions, s := OneMore(actions, WorkerStep(ORACLE));
    assert s.worker.phase == Saving;
    actions, s := OneMore(actions, WorkerStep(ORACLE));
  }

  /** Its final notification reaches core, and the worker has not reset state_ yet. */
  lemma SessionStops() returns (actions: seq<Action>, s: System)
    ensures s == Run(actions) && Calm(s) && s.core == STOPPED
    ensures s.worker == Worker(IDLE, false, Ready, Resetting, 1)
  {
    actions, s := SessionEnds();
    actions, s := OneMore(actions, WorkerStep(ORACLE));
    assert s.notiChannel == [Noti(STOP_NOTI, false, 1)];
    actions, s := Notified(actions, Noti(STOP_NOTI, false, 1));
  }

  /** "No command is ever lost" is false: one client, one session, a STOP and a quick START are enough
      to leave core waiting for ever. */
  lemma StartCanBeLost()
    ensures exists actions: seq<Action> :: Stuck(Run(actions))
  {
    var actions, s := SessionStops();
    actions, s := Commanded(actions, START);
    actions, s := OneMore(actions, CommandStep);
    actions, s := OneMore(actions, CommandStep);
    GapStoreIsLost(s, ORACLE);
    actions, s := OneMore(actions, CommandStep);
    actions, s := OneMore(actions, WorkerStep(ORACLE));
  }
}
