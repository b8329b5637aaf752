/** What a refused command does to core while a session is open: core takes the refusal for the end of
 * the recording and no longer stops it. */
module RecordRefusals {
  import opened RecordHandlers
  import opened RecordWorkers
  import opened RecordProtocol
  import opened RecordSafety

  /** A refusal was sent since the last START success, while that session was open. */
  ghost predicate Refused(actions: seq<Action>)
    decreases |actions|
  {
    if actions == [] then false
    else
      var before := actions[..|actions| - 1];
      Refuses(Run(before), actions[|actions| - 1], Refused(before))
  }

  predicate Refuses(s: System, a: Action, already: bool) {
    if a.WorkerStep? && s.worker.phase == Opened then false
    else already || (a == CommandStep && s.worker.main.Rejecting? && Open(s.worker))
  }

  /** While a session is open: what core will rest in tells whether a command was refused. */
  predicate Told(s: System, refused: bool) {
    Open(s.worker) && Eventually(s) != PROCESSING ==> (Eventually(s) == STOPPED <==> refused)
  }

  lemma WorkerTold(s: System, o: Oracle, refused: bool)
    requires Inv(s) && Told(s, refused)
    ensures Told(Apply(s, WorkerStep(o)), s.worker.phase != Opened && refused)
  {
    WorkerStepFrame(s, o);
    WorkerEventually(s, o);
  }

  lemma StepTold(s: System, a: Action, refused: bool)
    requires Inv(s) && Told(s, refused)
    ensures Told(Apply(s, a), Refuses(s, a, refused))
  {
    match a {
      case CoreStep => CoreStepFrame(s);
      case CommandStep => CommandStepFrame(s);
      case WorkerStep(o) => WorkerTold(s, o, refused);
      case Take => TakeFrame(s);
      case _ => MovesFrame(s, a);
    }
  }

  lemma TakeFrame(s: System)
    ensures Eventually(Apply(s, Take)) == Eventually(s)
    ensures Apply(s, Take).worker == s.worker.(main := Apply(s, Take).worker.main)
  {
    EventuallyMoves(s, Take);
  }

  lemma {:induction false} RunTold(actions: seq<Action>)
    ensures Told(Run(actions), Refused(actions))
    decreases |actions|
  {
    if actions == [] {
    } else {
      RunTold(actions[..|actions| - 1]);
      RunKeepsInv(actions[..|actions| - 1]);
      StepTold(Run(actions[..|actions| - 1]), actions[|actions| - 1], Refused(actions[..|actions| - 1]));
    }
  }

  /** The dual of NoPhantomRecording. In every run, while a session is open and core will not be waiting:
      replaying what is in flight ends in STOPPED if and only if a command was refused since the START
      success of that session, and in RECORDING otherwise. */
  lemma OpenSessionIsUnknownIffRefused(actions: seq<Action>)
    requires Open(Run(actions).worker) && Replay(Run(actions).core, InFlight(Run(actions))) != PROCESSING
    ensures Replay(Run(actions).core, InFlight(Run(actions))) ==
      if Refused(actions) then STOPPED else RecordState.RECORDING
  {
    RunTold(actions);
    ReplaySettles(Run(actions).core, InFlight(Run(actions)));
  }

  // ---------------------------------------------------------------- a session that core does not know of

  /** Nothing is under way, the device records, and core is STOPPED. */
  predicate Deaf(s: System) {
    Calm(s) && s.core == STOPPED && Open(s.worker) && s.worker.state == State.RECORDING
  }

  /** Then clients' STOP and CANCEL go no further than core. */
  lemma DeafToStop(s: System, cmd: Command)
    requires Deaf(s) && cmd != START
    ensures Apply(Apply(s, ClientSends(cmd)), CoreStep) == s
  {
    var t := Apply(s, ClientSends(cmd));
    assert t.coreQueue == [FromClient(cmd)];
  }

  /** Both channels may be in use; core's and the record manager's queues are empty. */
  predicate Idle(s: System) {
    s.coreQueue == [] && s.receiving == [] && s.recQueue == [] && s.worker.main == Ready
  }

  lemma Asks(actions: seq<Action>, cmd: Command) returns (longer: seq<Action>, s: System)
    requires Idle(Run(actions)) && Run(actions).core == if cmd == START then STOPPED else RecordState.RECORDING
    ensures s == Run(longer)
    ensures s == Run(actions).(core := PROCESSING, cmdChannel := Run(actions).cmdChannel + [cmd])
  {
    longer, s := OneMore(actions, ClientSends(cmd));
    longer, s := OneMore(longer, CoreStep);
  }

  lemma Hears(actions: seq<Action>, n: Noti) returns (longer: seq<Action>, s: System)
    requires Idle(Run(actions)) && Run(actions).notiChannel != [] && Run(actions).notiChannel[0] == n && IsVerdict(n)
    ensures s == Run(longer)
    ensures s == Run(actions).(core := OnNoti(Run(actions).core, n), notiChannel := Run(actions).notiChannel[1..])
  {
    longer, s := OneMore(actions, Receive);
    longer, s := OneMore(longer, Deliver);
    longer, s := OneMore(longer, CoreStep);
  }

  lemma Fetches(actions: seq<Action>, cmd: Command) returns (longer: seq<Action>, s: System)
    requires Idle(Run(actions)) && Run(actions).cmdChannel != [] && Run(actions).cmdChannel[0] == cmd
    ensures s == Run(longer)
    ensures s == Run(actions).(cmdChannel := Run(actions).cmdChannel[1..],
                               worker := Run(actions).worker.(main := Handling(cmd)))
  {
    longer, s := OneMore(actions, CommandArrives);
    assert s.recQueue == [Do(cmd)];
    longer, s := OneMore(longer, Take);
  }

  /** The next command on the channel is refused. */
  lemma IsRefused(actions: seq<Action>, cmd: Command) returns (longer: seq<Action>, s: System)
    requires Idle(Run(actions)) && Run(actions).cmdChannel != [] && Run(actions).cmdChannel[0] == cmd
    requires (cmd == START) != (Run(actions).worker.state == IDLE)
    ensures s == Run(longer)
    ensures s == Run(actions).(cmdChannel := Run(actions).cmdChannel[1..],
                               notiChannel := s.notiChannel)
    ensures s.notiChannel == Run(actions).notiChannel + [RejectionOf(cmd, Run(actions).worker.session)]
  {
    longer, s := Fetches(actions, cmd);
    longer, s := OneMore(longer, CommandStep);
    assert s.worker.main == Rejecting(cmd);
    longer, s := OneMore(longer, CommandStep);
  }

  /** The next command on the channel is a START, and it is taken. */
  lemma IsTaken(actions: seq<Action>) returns (longer: seq<Action>, s: System)
    requires Idle(Run(actions)) && Run(actions).cmdChannel != [] && Run(actions).cmdChannel[0] == START
    requires Run(actions).worker.state == IDLE
    ensures s == Run(longer) && Idle(s) && s.core == Run(actions).core && s.notiChannel == Run(actions).notiChannel
    ensures s.cmdChannel == Run(actions).cmdChannel[1..]
    ensures s.worker == Run(actions).worker.(state := State.RECORDING, cancelRequested := false)
  {
    longer, s := Fetches(actions, START);
    longer, s := OneMore(longer, CommandStep);
    assert s.worker.main == Clearing;
    longer, s := OneMore(longer, CommandStep);
    longer, s := OneMore(longer, CommandStep);
  }

  const LIMIT := Oracle(true, TimeLimit, NoAudio)

  /** A waiting thread with state_ == RECORDING opens its session. */
  lemma Opens(actions: seq<Action>) returns (longer: seq<Action>, s: System)
    requires Idle(Run(actions)) && Run(actions).worker.phase == Waiting && Run(actions).worker.state == State.RECORDING
    ensures var before := Run(actions);
            && s == Run(longer) && Idle(s) && s.core == before.core && s.cmdChannel == before.cmdChannel
            && s.worker == before.worker.(phase := Testing, session := before.worker.session + 1)
            && s.notiChannel == before.notiChannel + [Noti(START_NOTI, true, before.worker.session + 1)]
  {
    longer, s := OneMore(actions, WorkerStep(LIMIT));
    longer, s := OneMore(longer, WorkerStep(LIMIT));
    assert s.worker.phase == Opened;
    longer, s := OneMore(longer, WorkerStep(LIMIT));
  }

  /** A session reaches its time limit with state_ still RECORDING, and has no audio. */
  lemma ReachesLimit(actions: seq<Action>) returns (longer: seq<Action>, s: System)
    requires Idle(Run(actions)) && Run(actions).worker.phase == Testing && Run(actions).worker.state == State.RECORDING
    requires !Run(actions).worker.cancelRequested
    ensures var before := Run(actions);
            && s == Run(longer) && Idle(s) && s.core == before.core && s.cmdChannel == before.cmdChannel
            && s.notiChannel == before.notiChannel && s.worker == before.worker.(phase := Saving)
  {
    longer, s := OneMore(actions, WorkerStep(LIMIT));
    assert s.worker.phase == Capturing;
    longer, s := OneMore(longer, WorkerStep(LIMIT));
    assert s.worker.phase == Ending(false);
    longer, s := OneMore(longer, WorkerStep(LIMIT));
  }

  lemma Finishes(actions: seq<Action>) returns (longer: seq<Action>, s: System)
    requires Idle(Run(actions)) && Run(actions).worker.phase == Saving
    ensures var before := Run(actions);
            && s == Run(longer) && Idle(s) && s.core == before.core && s.cmdChannel == before.cmdChannel
            && s.notiChannel == before.notiChannel + [Noti(STOP_NOTI, false, before.worker.session)]
            && s.worker == before.worker.(phase := Waiting, state := IDLE)
  {
    longer, s := OneMore(actions, WorkerStep(LIMIT));
    assert s.worker.phase == Reporting(Noti(STOP_NOTI, false, Run(actions).worker.session));
    longer, s := OneMore(longer, WorkerStep(LIMIT));
    assert s.worker.phase == Resetting;
    longer, s := OneMore(longer, WorkerStep(LIMIT));
  }

  /** A STOP is on its way while the session reaches its limit. */
  lemma StopComesLate() returns (actions: seq<Action>, s: System)
    ensures s == Run(actions) && Idle(s) && s.core == STOPPED && s.cmdChannel == [STOP] && s.notiChannel == []
    ensures s.worker == Worker(IDLE, false, Ready, Waiting, 1)
  {
    actions, s := SessionStarts();
    actions, s := Asks(actions, STOP);
    actions, s := ReachesLimit(actions);
    actions, s := Finishes(actions);
    actions, s := Hears(actions, Noti(STOP_NOTI, false, 1));
  }

  /** Core asks for a new session, takes the refusal of the late STOP for its answer, and asks again. */
  lemma AsksTwice() returns (actions: seq<Action>, s: System)
    ensures s == Run(actions) && Idle(s) && s.core == PROCESSING
    ensures s.cmdChannel == [START, START] && s.notiChannel == []
    ensures s.worker == Worker(IDLE, false, Ready, Waiting, 1)
  {
    actions, s := StopComesLate();
    actions, s := Asks(actions, START);
    actions, s := IsRefused(actions, STOP);
    actions, s := Hears(actions, Noti(STOP_NOTI, false, 1));
    actions, s := Asks(actions, START);
  }

  /** The first START opens session 2, the second is refused, and core ends in STOPPED while it records. */
  lemma SessionCanBeUnknown()
    ensures exists actions: seq<Action> :: Deaf(Run(actions))
  {
    var actions, s := AsksTwice();
    actions, s := IsTaken(actions);
    actions, s := Opens(actions);
    actions, s := IsRefused(actions, START);
    actions, s := Hears(actions, Noti(START_NOTI, true, 2));
    actions, s := Hears(actions, Noti(START_NOTI, false, 2));
    assert Deaf(s);
  }
}
