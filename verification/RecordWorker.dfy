/** The record manager's session engine (recordmgr/src/Thread/RecordWorker.cpp).
 *
 * Two threads share `state_` and `cancelRequested_`: the record manager's MainWorker, which runs
 * startRecording, stopRecording and cancelRecording, and the RecordWorker thread itself. Every read
 * or write of a shared variable and every notification sent is one step of its thread, so each
 * thread has its own program counter. */
module RecordWorkers {
  import opened RecordHandlers

  datatype State = IDLE | RECORDING

  /** Where the MainWorker thread stands. */
  datatype MainPc =
    | Ready
    | Handling(cmd: Command)   // event popped, state_ not read yet
    | Clearing                 // START saw IDLE; next: cancelRequested_ = false
    | Arming                   // next: state_ = RECORDING
    | Flagging                 // CANCEL saw RECORDING; next: cancelRequested_ = true
    | Disarming                // next: state_ = IDLE
    | Rejecting(cmd: Command)  // next: send the "fail" notification

  /** Where the RecordWorker thread stands. */
  datatype Phase =
    | Waiting                    // cv_.wait until state_ == RECORDING
    | Opening                    // clear the buffer, open the device
    | Opened                     // next: send START success
    | Testing                    // loop guard: read state_
    | Capturing                  // loop body: duration check and captureOnce
    | Ending(captureError: bool) // read cancelRequested_ unless a capture error ended the loop
    | Saving                     // write the WAV file
    | Reporting(noti: Noti)      // next: send this notification
    | Queueing                   // next: push FILTER_WAV_FILE
    | Resetting                  // next: state_ = IDLE

  /** The outcomes the operating system decides for the RecordWorker thread. */
  datatype Oracle = Oracle(opens: bool, capture: Capture, save: Save)
  datatype Capture = Continues | TimeLimit | Fails
  datatype Save = NoAudio | WriteFails | Saved

  datatype Worker = Worker(state: State, cancelRequested: bool, main: MainPc, phase: Phase, session: nat)

  /** What one step lets out: notifications to core, and sessions queued for filtering. */
  datatype Output = Output(notis: seq<Noti>, queued: seq<nat>)

  const QUIET := Output([], [])

  function Start(): Worker {
    Worker(IDLE, false, Ready, Waiting, 0)
  }

  function RejectionOf(cmd: Command, session: nat): Noti
  {
    match cmd
    case START => Noti(START_NOTI, false, session)
    case STOP => Noti(STOP_NOTI, false, session)
    case CANCEL => Noti(CANCEL_NOTI, false, session)
  }

  /** One step of the MainWorker thread inside a recording command. */
  function MainStep(w: Worker): (Worker, Output)
  {
    match w.main
    case Ready => (w, QUIET)
    case Handling(START) =>
      (w.(main := if w.state == IDLE then Clearing else Rejecting(START)), QUIET)
    case Handling(STOP) =>
      (w.(main := if w.state == State.RECORDING then Disarming else Rejecting(STOP)), QUIET)
    case Handling(CANCEL) =>
      (w.(main := if w.state == State.RECORDING then Flagging else Rejecting(CANCEL)), QUIET)
    case Clearing => (w.(cancelRequested := false, main := Arming), QUIET)
    case Arming => (w.(state := State.RECORDING, main := Ready), QUIET)
    case Flagging => (w.(cancelRequested := true, main := Disarming), QUIET)
    case Disarming => (w.(state := IDLE, main := Ready), QUIET)
    case Rejecting(cmd) => (w.(main := Ready), Output([RejectionOf(cmd, w.session)], []))
  }

  /** One step of the RecordWorker thread. */
  function ThreadStep(w: Worker, o: Oracle): (Worker, Output)
  {
    match w.phase
    case Waiting => (if w.state == State.RECORDING then w.(phase := Opening) else w, QUIET)
    case Opening =>
      (w.(phase := if o.opens then Opened else Reporting(Noti(START_NOTI, false, w.session))), QUIET)
    case Opened =>
      (w.(phase := Testing, session := w.session + 1), Output([Noti(START_NOTI, true, w.session + 1)], []))
    case Testing => (w.(phase := if w.state == State.RECORDING then Capturing else Ending(false)), QUIET)
    case Capturing =>
      (w.(phase := match o.capture
                   case Continues => Testing
                   case TimeLimit => Ending(false)
                   case Fails => Ending(true)), QUIET)
    case Ending(captureError) =>
      (w.(phase := if captureError then Reporting(Noti(STOP_NOTI, false, w.session))
                   else if w.cancelRequested then Reporting(Noti(CANCEL_NOTI, true, w.session))
                   else Saving), QUIET)
    case Saving => (w.(phase := Reporting(Noti(STOP_NOTI, o.save == Saved, w.session))), QUIET)
    case Reporting(n) =>
      (w.(phase := if n.kind == STOP_NOTI && n.ok then Queueing else Resetting), Output([n], []))
    case Queueing => (w.(phase := Resetting), Output([], [w.session]))
    case Resetting => (w.(state := IDLE, phase := Waiting), QUIET)
  }

  /** A session is open from its START success to its final notification. */
  predicate Open(w: Worker) {
    match w.phase
    case Testing => true
    case Capturing => true
    case Ending(_) => true
    case Saving => true
    case Reporting(n) => n.kind != START_NOTI
    case _ => false
  }

  /** The final notification is out but `state_ = IDLE` has not been written yet. */
  predicate InGap(w: Worker) {
    w.phase == Queueing || w.phase == Resetting
  }

  /** The lines after the capture loop, and the reset after a failed open. */
  predicate Finishing(w: Worker) {
    w.phase.Ending? || w.phase == Saving || w.phase.Reporting? || InGap(w)
  }

  /** What both program counters say about the values they carry. */
  ghost predicate WellFormed(w: Worker) {
    w.phase.Reporting? ==>
      w.phase.noti.session == w.session && IsVerdict(w.phase.noti)
      && (w.phase.noti.kind == START_NOTI ==> !w.phase.noti.ok)
      && (w.phase.noti.kind == CANCEL_NOTI ==> w.phase.noti.ok)
  }

  function Then(first: (Worker, Output), rest: (Worker, Output)): (Worker, Output) {
    (rest.0, Output(first.1.notis + rest.1.notis, first.1.queued + rest.1.queued))
  }

  lemma ThenQuiet(first: (Worker, Output), rest: (Worker, Output))
    ensures first.1 == QUIET ==> Then(first, rest) == rest
    ensures rest.1 == QUIET ==> Then(first, rest) == (rest.0, first.1)
  {
    assert [] + rest.1.notis == rest.1.notis && [] + rest.1.queued == rest.1.queued;
    assert first.1.notis + [] == first.1.notis && first.1.queued + [] == first.1.queued;
  }

  function Remaining(pc: MainPc): nat
  {
    match pc
    case Ready => 0
    case Handling(_) => 4
    case Clearing => 2
    case Arming => 1
    case Flagging => 2
    case Disarming => 1
    case Rejecting(_) => 1
  }

  /** The other thread's `state_ = IDLE` comes in between, if it does. A command depends on nothing else
      that thread does. */
  function Reset(w: Worker, resets: seq<bool>): Worker {
    if w.main != Ready && resets != [] && resets[0] then w.(state := IDLE) else w
  }

  /** The MainWorker thread runs its command to the end, with the other thread's resets between steps. */
  function Serve(w: Worker, resets: seq<bool>): (Worker, Output)
    decreases Remaining(w.main)
  {
    if w.main == Ready then (w, QUIET)
    else Then(MainStep(w), Serve(Reset(MainStep(w).0, resets), if resets == [] then [] else resets[1..]))
  }

  function Left(phase: Phase): nat
  {
    match phase
    case Ending(_) => 5
    case Saving => 4
    case Reporting(_) => 3
    case Queueing => 2
    case Resetting => 1
    case _ => 0
  }

  /** The RecordWorker thread runs from the end of its loop back to the wait. */
  function Finish(w: Worker, o: Oracle): (Worker, Output)
    decreases Left(w.phase)
  {
    if Left(w.phase) == 0 then (w, QUIET) else Then(ThreadStep(w, o), Finish(ThreadStep(w, o).0, o))
  }

  lemma FinishNext(w: Worker, o: Oracle)
    requires Finishing(w)
    ensures Finish(w, o) == Then(ThreadStep(w, o), Finish(ThreadStep(w, o).0, o))
    ensures ThreadStep(w, o).1 == QUIET ==> Finish(w, o) == Finish(ThreadStep(w, o).0, o)
    ensures Left(ThreadStep(w, o).0.phase) == 0 ==> Finish(w, o) == ThreadStep(w, o)
  {
    ThenQuiet(ThreadStep(w, o), Finish(ThreadStep(w, o).0, o));
  }

  lemma ServeNext(w: Worker, reset: bool, resets: seq<bool>)
    requires w.main != Ready
    ensures MainStep(w).1 == QUIET ==> Serve(w, [reset] + resets) == Serve(Reset(MainStep(w).0, [reset]), resets)
    ensures MainStep(w).0.main == Ready ==> Serve(w, [reset] + resets) == MainStep(w)
  {
    assert ([reset] + resets)[1..] == resets;
    ThenQuiet(MainStep(w), Serve(Reset(MainStep(w).0, [reset]), resets));
  }

  lemma TwoSteps(w: Worker, r1: bool, resets: seq<bool>)
    requires w.main != Ready && MainStep(w).0.main != Ready && MainStep(w).1 == QUIET
    requires MainStep(Reset(MainStep(w).0, [r1])).0.main == Ready && resets != []
    ensures Serve(w, [r1] + resets) == MainStep(Reset(MainStep(w).0, [r1]))
  {
    ServeNext(w, r1, resets);
    ServeNext(Reset(MainStep(w).0, [r1]), resets[0], resets[1..]);
    assert [resets[0]] + resets[1..] == resets;
  }

  lemma RefusalServed(w: Worker, cmd: Command, r1: bool, resets: seq<bool>)
    requires w.main == Handling(cmd) && (cmd == START) != (w.state == IDLE) && resets != []
    ensures Serve(w, [r1] + resets) ==
      (w.(main := Ready, state := if r1 then IDLE else w.state), Output([RejectionOf(cmd, w.session)], []))
  {
    assert MainStep(w) == (w.(main := Rejecting(cmd)), QUIET);
    TwoSteps(w, r1, resets);
  }

  lemma StartServed(w: Worker, r1: bool, r2: bool)
    requires w.main == Handling(START) && w.state == IDLE
    ensures Serve(w, [r1] + ([r2] + [false])) ==
      (w.(main := Ready, state := State.RECORDING, cancelRequested := false), QUIET)
  {
    assert MainStep(w) == (w.(main := Clearing), QUIET);
    ServeNext(w, r1, [r2] + [false]);
    TwoSteps(w.(main := Clearing), r2, [false]);
  }

  lemma CancelServed(w: Worker, r1: bool, r2: bool)
    requires w.main == Handling(CANCEL) && w.state == State.RECORDING
    ensures Serve(w, [r1] + ([r2] + [false])) == (w.(main := Ready, state := IDLE, cancelRequested := true), QUIET)
  {
    var w1 := Reset(w.(main := Flagging), [r1]);
    assert MainStep(w) == (w.(main := Flagging), QUIET);
    ServeNext(w, r1, [r2] + [false]);
    TwoSteps(w1, r2, [false]);
  }

  /** Whether or not the other thread resets `state_` in the midst of it, a command is either refused
      with its own "fail" notification, or taken silently, and then `state_` says so: what it read first
      decides. */
  lemma ServeDecides(w: Worker, cmd: Command, r1: bool, r2: bool)
    requires w.main == Handling(cmd)
    ensures var refused := (cmd == START) != (w.state == IDLE);
            Serve(w, [r1, r2, false]) ==
              if refused then
                (w.(main := Ready, state := if r1 then IDLE else w.state),
                 Output([Noti(if cmd == START then START_NOTI else if cmd == STOP then STOP_NOTI else CANCEL_NOTI,
                              false, w.session)], []))
              else (w.(main := Ready, state := if cmd == START then State.RECORDING else IDLE,
                       cancelRequested := if cmd == STOP then w.cancelRequested else cmd == CANCEL), QUIET)
  {
    assert [r1] + ([r2] + [false]) == [r1, r2, false];
    if (cmd == START) != (w.state == IDLE) {
      RefusalServed(w, cmd, r1, [r2] + [false]);
    } else {
      match cmd {
        case START => StartServed(w, r1, r2);
        case STOP => TwoSteps(w, r1, [r2] + [false]);
        case CANCEL => CancelServed(w, r1, r2);
      }
    }
  }

  lemma ReportFinishes(w: Worker, o: Oracle)
    requires w.phase.Reporting?
    ensures var n := w.phase.noti;
            Finish(w, o) ==
              (w.(state := IDLE, phase := Waiting),
               Output([n], if n.kind == STOP_NOTI && n.ok then [w.session] else []))
  {
    var w1 := ThreadStep(w, o).0;
    var w2 := ThreadStep(w1, o).0;
    FinishNext(w, o);
    FinishNext(w1, o);
    ThenQuiet(ThreadStep(w, o), Finish(w1, o));
    if w1.phase == Queueing {
      FinishNext(w2, o);
      ThenQuiet(ThreadStep(w1, o), Finish(w2, o));
      assert Finish(w1, o) == (w1.(state := IDLE, phase := Waiting), Output([], [w.session]));
      assert [w.phase.noti] + [] == [w.phase.noti] && [] + [w.session] == [w.session];
    }
  }

  /** Whatever ended the loop, exactly one final notification goes out, and the session is queued for
      filtering exactly when that notification is a STOP success. */
  lemma FinishReports(w: Worker, captureError: bool, save: Save)
    requires w.phase == Ending(captureError)
    ensures var n := if captureError then Noti(STOP_NOTI, false, w.session)
                     else if w.cancelRequested then Noti(CANCEL_NOTI, true, w.session)
                     else Noti(STOP_NOTI, save == Saved, w.session);
            Finish(w, Oracle(true, Continues, save)) ==
              (w.(state := IDLE, phase := Waiting),
               Output([n], if n == Noti(STOP_NOTI, true, w.session) then [w.session] else []))
  {
    var o := Oracle(true, Continues, save);
    var w1 := ThreadStep(w, o).0;
    FinishNext(w, o);
    if w1.phase == Saving {
      FinishNext(w1, o);
      ReportFinishes(ThreadStep(w1, o).0, o);
    } else {
      ReportFinishes(w1, o);
    }
  }

  /** What happens at one turn of the capture loop: a STOP or a CANCEL may take effect before the
      guard is read and, if it lets the thread in, before the body; and the device answers the body. */
  datatype Turn = Turn(beforeGuard: Interference, beforeBody: Interference, capture: Capture)
  datatype Interference = Quiet | StopTaken | CancelTaken

  /** Thread steps with the stores of an accepted STOP or CANCEL in between. */
  datatype Event = Thread(o: Oracle) | Stored(cancel: bool)

  function Interfere(w: Worker, cancel: bool): Worker {
    w.(state := IDLE, cancelRequested := w.cancelRequested || cancel)
  }

  function Play(w: Worker, events: seq<Event>): (Worker, Output)
    decreases |events|
  {
    if events == [] then (w, QUIET)
    else
      var (w1, o1) := Play(w, events[..|events| - 1]);
      match events[|events| - 1]
      case Stored(cancel) => (Interfere(w1, cancel), o1)
      case Thread(o) =>
        var (w2, o2) := ThreadStep(w1, o);
        (w2, Output(o1.notis + o2.notis, o1.queued + o2.queued))
  }

  lemma PlayOne(w: Worker, events: seq<Event>, e: Event)
    ensures Play(w, events + [e]) ==
      match e
      case Stored(cancel) => (Interfere(Play(w, events).0, cancel), Play(w, events).1)
      case Thread(o) =>
        var (w1, o1) := Play(w, events);
        var (w2, o2) := ThreadStep(w1, o);
        (w2, Output(o1.notis + o2.notis, o1.queued + o2.queued))
  {
    assert (events + [e])[..|events + [e]| - 1] == events;
  }

  function Stores(i: Interference): seq<Event>
  {
    match i
    case Quiet => []
    case StopTaken => [Stored(false)]
    case CancelTaken => [Stored(true)]
  }

  function Disturbed(w: Worker, i: Interference): Worker {
    if i == Quiet then w else Interfere(w, i == CancelTaken)
  }

  function After(capture: Capture): Phase
  {
    match capture
    case Continues => Testing
    case TimeLimit => Ending(false)
    case Fails => Ending(true)
  }

  /** The events of one turn, and what they make of a worker that is about to read the guard. */
  function EventsOf(w: Worker, t: Turn): seq<Event>
  {
    var step := [Thread(Oracle(true, t.capture, Saved))];
    Stores(t.beforeGuard) + step
    + if Disturbed(w, t.beforeGuard).state == IDLE then [] else Stores(t.beforeBody) + step
  }

  function TurnOf(w: Worker, t: Turn): Worker
  {
    var w1 := Disturbed(w, t.beforeGuard);
    if w1.state == IDLE then w1.(phase := Ending(false)) else Disturbed(w1, t.beforeBody).(phase := After(t.capture))
  }

  lemma StoresPlay(w0: Worker, events: seq<Event>, i: Interference)
    ensures Play(w0, events + Stores(i)) == (Disturbed(Play(w0, events).0, i), Play(w0, events).1)
  {
    if i == Quiet {
      assert events + Stores(i) == events;
    } else {
      PlayOne(w0, events, Stored(i == CancelTaken));
    }
  }

  lemma StepPlays(w0: Worker, events: seq<Event>, o: Oracle)
    requires Play(w0, events).1 == QUIET && ThreadStep(Play(w0, events).0, o).1 == QUIET
    ensures Play(w0, events + [Thread(o)]) == (ThreadStep(Play(w0, events).0, o).0, QUIET)
  {
    PlayOne(w0, events, Thread(o));
  }

  /** A disturbance, then one step of the thread. */
  lemma PartPlays(w0: Worker, events: seq<Event>, i: Interference, o: Oracle)
    requires Play(w0, events).1 == QUIET && ThreadStep(Disturbed(Play(w0, events).0, i), o).1 == QUIET
    ensures Play(w0, events + (Stores(i) + [Thread(o)])) == (ThreadStep(Disturbed(Play(w0, events).0, i), o).0, QUIET)
  {
    var disturbed := events + Stores(i);
    assert events + (Stores(i) + [Thread(o)]) == disturbed + [Thread(o)];
    StoresPlay(w0, events, i);
    StepPlays(w0, disturbed, o);
  }

  lemma GuardStep(w: Worker, o: Oracle)
    requires w.phase == Testing
    ensures ThreadStep(w, o) == (w.(phase := if w.state == IDLE then Ending(false) else Capturing), QUIET)
  {
  }

  lemma BodyStep(w: Worker, o: Oracle)
    requires w.phase == Capturing
    ensures ThreadStep(w, o) == (w.(phase := After(o.capture)), QUIET)
  {
  }

  lemma TurnPlays(w0: Worker, events: seq<Event>, w: Worker, t: Turn)
    requires Play(w0, events) == (w, QUIET) && w.phase == Testing
    ensures Play(w0, events + EventsOf(w, t)) == (TurnOf(w, t), QUIET)
  {
    var o := Oracle(true, t.capture, Saved);
    var guard := Stores(t.beforeGuard) + [Thread(o)];
    var w1 := Disturbed(w, t.beforeGuard);
    GuardStep(w1, o);
    PartPlays(w0, events, t.beforeGuard, o);
    if w1.state == IDLE {
      assert EventsOf(w, t) == guard;
    } else {
      var body := Stores(t.beforeBody) + [Thread(o)];
      var w2 := w1.(phase := Capturing);
      BodyStep(Disturbed(w2, t.beforeBody), o);
      PartPlays(w0, events + guard, t.beforeBody, o);
      assert events + EventsOf(w, t) == events + guard + body;
    }
  }

  class RecordWorker {
    var state: State
    var cancelRequested: bool
    var sent: seq<Noti>
    var filterQueue: seq<nat>
    var session: nat

    constructor ()
      ensures state == IDLE && !cancelRequested && sent == [] && filterQueue == [] && session == 0
    {
      state := IDLE;
      cancelRequested := false;
      sent := [];
      filterQueue := [];
      session := 0;
    }

    /** This object seen as a worker state with the two threads at the given places. */
    function At(main: MainPc, phase: Phase): Worker
      reads this
    {
      Worker(state, cancelRequested, main, phase, session)
    }

    method OtherThreadResets(reset: bool)
      modifies this`state
      ensures state == if reset then IDLE else old(state)
    {
      if reset {
        state := IDLE;
      }
    }

    /** The three command methods, wherever the other thread stands; `r1` and `r2` tell whether it resets
        `state_` after their first and their second step. */
    method StartRecording(ghost phase: Phase, r1: bool, r2: bool)
      modifies this`state, this`cancelRequested, this`sent
      ensures var (w, o) := Serve(old(At(Handling(START), phase)), [r1, r2, false]);
              At(Ready, phase) == w && sent == old(sent) + o.notis
      ensures if old(state) == IDLE then state == State.RECORDING && !cancelRequested && sent == old(sent)
              else sent == old(sent) + [Noti(START_NOTI, false, session)] && cancelRequested == old(cancelRequested)
    {
      ServeDecides(At(Handling(START), phase), START, r1, r2);
      if state == IDLE {
        OtherThreadResets(r1);
        cancelRequested := false;
        OtherThreadResets(r2);
        state := State.RECORDING;
      } else {
        OtherThreadResets(r1);
        sent := sent + [Noti(START_NOTI, false, session)];
      }
    }

    method StopRecording(ghost phase: Phase, r1: bool)
      modifies this`state, this`sent
      ensures var (w, o) := Serve(old(At(Handling(STOP), phase)), [r1, false, false]);
              At(Ready, phase) == w && sent == old(sent) + o.notis
      ensures if old(state) == State.RECORDING then state == IDLE && sent == old(sent)
              else state == IDLE && sent == old(sent) + [Noti(STOP_NOTI, false, session)]
    {
      ServeDecides(At(Handling(STOP), phase), STOP, r1, false);
      if state == State.RECORDING {
        OtherThreadResets(r1);
        state := IDLE;
      } else {
        OtherThreadResets(r1);
        sent := sent + [Noti(STOP_NOTI, false, session)];
      }
    }

    method CancelRecording(ghost phase: Phase, r1: bool, r2: bool)
      modifies this`state, this`cancelRequested, this`sent
      ensures var (w, o) := Serve(old(At(Handling(CANCEL), phase)), [r1, r2, false]);
              At(Ready, phase) == w && sent == old(sent) + o.notis
      ensures if old(state) == State.RECORDING then state == IDLE && cancelRequested && sent == old(sent)
              else state == IDLE && sent == old(sent) + [Noti(CANCEL_NOTI, false, session)]
    {
      ServeDecides(At(Handling(CANCEL), phase), CANCEL, r1, r2);
      if state == State.RECORDING {
        OtherThreadResets(r1);
        cancelRequested := true;
        OtherThreadResets(r2);
        state := IDLE;
      } else {
        OtherThreadResets(r1);
        sent := sent + [Noti(CANCEL_NOTI, false, session)];
      }
    }

    /** The capture loop of threadFunction. `turns` says what the other thread and the device do; if
        they run out, the thread is still in the loop. */
    method CaptureLoop(turns: seq<Turn>) returns (captureError: bool, left: bool, ghost events: seq<Event>)
      modifies this`state, this`cancelRequested
      ensures Play(old(At(Ready, Testing)), events) ==
        (At(Ready, if left then Ending(captureError) else Testing), QUIET)
      ensures left && !captureError && state == State.RECORDING ==> exists t | t in turns :: t.capture == TimeLimit
      ensures captureError ==> left && exists t | t in turns :: t.capture == Fails
    {
      captureError, left, events := false, false, [];
      ghost var w0 := At(Ready, Testing);
      var i := 0;
      while i < |turns| && !left
        invariant 0 <= i <= |turns| && session == old(session)
        invariant Play(w0, events) == (At(Ready, if left then Ending(captureError) else Testing), QUIET)
        invariant left && !captureError && state == State.RECORDING ==> exists t | t in turns :: t.capture == TimeLimit
        invariant captureError ==> left && exists t | t in turns :: t.capture == Fails
      {
        var t := turns[i];
        assert t in turns;
        TurnPlays(w0, events, At(Ready, Testing), t);
        events := events + EventsOf(At(Ready, Testing), t);
        OtherThread(t.beforeGuard);
        if state == State.RECORDING {
          OtherThread(t.beforeBody);
          captureError := t.capture == Fails;
          left := t.capture != Continues;
        } else {
          left := true;
        }
        i := i + 1;
      }
    }

    /** The stores of an accepted STOP or CANCEL of the MainWorker thread. */
    method OtherThread(i: Interference)
      modifies this`state, this`cancelRequested
      ensures At(Ready, Testing) == Disturbed(old(At(Ready, Testing)), i)
    {
      match i {
        case Quiet =>
        case StopTaken =>
          state := IDLE;
        case CancelTaken =>
          cancelRequested := true;
          state := IDLE;
      }
    }

    /** From the end of the capture loop back to the wait: exactly one final notification, and a
        filter event exactly when it is a STOP success. */
    method FinishSession(captureError: bool, save: Save)
      modifies this
      ensures var (w, out) := Finish(old(At(Ready, Ending(captureError))), Oracle(true, Continues, save));
              At(Ready, Waiting) == w && sent == old(sent) + out.notis && filterQueue == old(filterQueue) + out.queued
      ensures state == IDLE
    {
      FinishReports(At(Ready, Ending(captureError)), captureError, save);
      var n: Noti;
      if captureError {
        n := Noti(STOP_NOTI, false, session);
        sent := sent + [n];
      } else if cancelRequested {
        n := Noti(CANCEL_NOTI, true, session);
        sent := sent + [n];
      } else {
        match save {
          case NoAudio =>
            n := Noti(STOP_NOTI, false, session);
            sent := sent + [n];
          case WriteFails =>
            n := Noti(STOP_NOTI, false, session);
            sent := sent + [n];
          case Saved =>
            n := Noti(STOP_NOTI, true, session);
            sent := sent + [n];
            filterQueue := filterQueue + [session];
        }
      }
      state := IDLE;
      assert sent == old(sent) + [n];
    }

    /** One turn of the outer loop, after the wait: open, capture, finish. `done` says whether the
        capture loop was left. A session sends its START success and one final notification. */
    method RunSession(opens: bool, turns: seq<Turn>, save: Save) returns (done: bool)
      modifies this
      ensures !opens ==>
        && done && session == old(session) && filterQueue == old(filterQueue)
        && sent == old(sent) + [Noti(START_NOTI, false, session)]
      ensures opens ==> session == old(session) + 1 && old(sent) + [Noti(START_NOTI, true, session)] <= sent
      ensures opens && done ==>
        && |sent| == |old(sent)| + 2
        && sent[|sent| - 1].session == session && IsVerdict(sent[|sent| - 1]) && sent[|sent| - 1].kind != START_NOTI
        && filterQueue == old(filterQueue) +
             (if sent[|sent| - 1] == Noti(STOP_NOTI, true, session) then [session] else [])
      ensures opens && !done ==> |sent| == |old(sent)| + 1 && filterQueue == old(filterQueue)
      ensures done ==> state == IDLE
    {
      if !opens {
        sent := sent + [Noti(START_NOTI, false, session)];
        state := IDLE;
        return true;
      }
      session := session + 1;
      sent := sent + [Noti(START_NOTI, true, session)];
      var captureError, left, events := CaptureLoop(turns);
      if left {
        FinishReports(At(Ready, Ending(captureError)), captureError, save);
        FinishSession(captureError, save);
      }
      return left;
    }
  }
}
