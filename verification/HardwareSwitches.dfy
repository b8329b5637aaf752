/** The scan and power part of core's hardware handler (coremgr/src/Controller/HardwareHandler.cpp). */
module HardwareSwitches {

  /** ScanningBTDeviceState, with IDLE and SCANNING, and BluetoothPowerState, with OFF and ON. */
  datatype SwitchState = OFF | ON | PROCESSING

  datatype Switch = SCAN | POWER

  /** A D-Bus command to hardwaremgr, or its answer broadcast to the clients: turn `what` on or off. */
  datatype Command = Turn(what: Switch, on: bool)
  datatype Broadcast = Turned(what: Switch, on: bool, success: bool)

  /** What a client command does to the state, and whether hardwaremgr is told. */
  function OnCommand(state: SwitchState, on: bool): (SwitchState, bool) {
    if state == (if on then OFF else ON) then (SwitchState.PROCESSING, true) else (state, false)
  }

  /** The state after hardwaremgr's answer: a failure means that the switch is where it was before. */
  function OnNoti(on: bool, success: bool): SwitchState {
    if success == on then ON else OFF
  }

  // ---------------------------------------------------------------- commands and their own reports

  /** What happens to one switch: a client asks for a position, hardwaremgr reports on the oldest command
      it has not reported on, or it reports for another reason: it answers INITIALIZE_BLUETOOTH, or the
      adapter changed by itself. Core cannot tell such a report from an answer. */
  datatype Event = Asked(on: bool) | Answered(success: bool) | Unasked(on: bool, success: bool)

  datatype Line = Line(
    state: SwitchState,
    open: seq<bool>,         // history: commands sent that have no report of their own yet, oldest first
    position: SwitchState)   // history: where the switch stands by the last report

  /** An answer without an open command changes nothing. */
  function Apply(l: Line, e: Event): Line
  {
    match e
    case Asked(on) =>
      var (state, sent) := OnCommand(l.state, on);
      l.(state := state, open := l.open + if sent then [on] else [])
    case Answered(success) =>
      if l.open == [] then l else Line(OnNoti(l.open[0], success), l.open[1..], OnNoti(l.open[0], success))
    case Unasked(on, success) => Line(OnNoti(on, success), l.open, OnNoti(on, success))
  }

  function Run(events: seq<Event>): Line
    decreases |events|
  {
    if events == [] then Line(OFF, [], OFF) else Apply(Run(events[..|events| - 1]), events[|events| - 1])
  }

  /** Core waits exactly for the one command that has no report of its own. */
  predicate Matched(l: Line) {
    |l.open| <= 1 && (l.state == SwitchState.PROCESSING <==> |l.open| == 1)
  }

  /** A report that is not the pending command's own is handled while core waits. */
  predicate Disturbs(l: Line, e: Event) {
    e.Unasked? && l.state == SwitchState.PROCESSING
  }

  predicate AlwaysMatched(events: seq<Event>)
    decreases |events|
  {
    Matched(Run(events)) && (events != [] ==> AlwaysMatched(events[..|events| - 1]))
  }

  predicate NeverDisturbed(events: seq<Event>)
    decreases |events|
  {
    events == [] ||
    (NeverDisturbed(events[..|events| - 1]) && !Disturbs(Run(events[..|events| - 1]), events[|events| - 1]))
  }

  /** In every run, also a disturbed one, a waiting core has an open command, and the newest asks for the
      position the switch is not in; a core that does not wait shows the last reported position. */
  lemma {:induction false} WaitsForOpenCommand(events: seq<Event>)
    ensures var l := Run(events);
            && (l.position == OFF || l.position == ON)
            && (l.state == SwitchState.PROCESSING ==> l.open != [] && l.open[|l.open| - 1] == (l.position == OFF))
            && (l.state != SwitchState.PROCESSING ==> l.state == l.position)
    decreases |events|
  {
    if events == [] {
    } else {
      WaitsForOpenCommand(events[..|events| - 1]);
    }
  }

  lemma StepMatched(l: Line, e: Event)
    requires Matched(l)
    ensures Matched(Apply(l, e)) <==> !Disturbs(l, e)
  {
  }

  /** There is never a second command without a report of its own, and core waits exactly while there is
      one, at every moment of a run if and only if no report other than the pending command's own is
      handled while core waits. */
  lemma {:induction false} MatchedIffUndisturbed(events: seq<Event>)
    ensures AlwaysMatched(events) <==> NeverDisturbed(events)
    decreases |events|
  {
    if events == [] {
    } else {
      var before := events[..|events| - 1];
      MatchedIffUndisturbed(before);
      if AlwaysMatched(before) {
        StepMatched(Run(before), events[|events| - 1]);
      }
    }
  }

  lemma OneMore(events: seq<Event>, e: Event)
    ensures Run(events + [e]) == Apply(Run(events), e)
  {
    assert (events + [e])[..|events + [e]| - 1] == events;
  }

  /** After a disturbing report core does not wait although a command is open, and one more request for
      the other position makes a second open command. */
  lemma DisturbedAsksTwice(events: seq<Event>, e: Event)
    requires Matched(Run(events)) && Disturbs(Run(events), e)
    ensures var l := Run(events + [e]);
            && l.state != SwitchState.PROCESSING && |l.open| == 1
            && |Run(events + [e] + [Asked(l.state == OFF)]).open| == 2
  {
    OneMore(events, e);
    OneMore(events + [e], Asked(Run(events + [e]).state == OFF));
  }

  /** The adapter is on, a client asks for power off, and the report for another client that joins is
      handled first: the client can ask again, and power off is sent twice. */
  lemma PowerOffSentTwice()
    ensures var events := [] + [Unasked(true, true)] + [Asked(false)] + [Unasked(true, true)] + [Asked(false)];
            Run(events).open == [false, false]
  {
    OneMore([], Unasked(true, true));
    OneMore([] + [Unasked(true, true)], Asked(false));
    OneMore([] + [Unasked(true, true)] + [Asked(false)], Unasked(true, true));
    OneMore([] + [Unasked(true, true)] + [Asked(false)] + [Unasked(true, true)], Asked(false));
  }

  /** A failure report on the open command leaves the switch as it was before the command, and a success
      report puts it where the client asked. */
  lemma ReportSettles(events: seq<Event>, on: bool, success: bool)
    requires Run(events).state == SwitchState.PROCESSING && Run(events).open == [on]
    ensures var after := Run(events + [Answered(success)]).state;
            && (!success ==> after == Run(events).position)
            && (success ==> after == if on then ON else OFF)
  {
    WaitsForOpenCommand(events);
    OneMore(events, Answered(success));
  }

  class HardwareSwitches {
    var scanState: SwitchState
    var powerState: SwitchState
    var sent: seq<Command>
    var broadcasts: seq<Broadcast>

    constructor ()
      ensures scanState == OFF && powerState == OFF && sent == [] && broadcasts == []
    {
      scanState, powerState := OFF, OFF;
      sent, broadcasts := [], [];
    }

    method StartScanBTDevice()
      modifies this`scanState, this`sent
      ensures scanState == OnCommand(old(scanState), true).0
      ensures sent == old(sent) + if OnCommand(old(scanState), true).1 then [Turn(SCAN, true)] else []
    {
      match scanState {
        case OFF =>
          scanState := SwitchState.PROCESSING;
          sent := sent + [Turn(SCAN, true)];
        case ON =>
        case PROCESSING =>
      }
    }

    method StopScanBTDevice()
      modifies this`scanState, this`sent
      ensures scanState == OnCommand(old(scanState), false).0
      ensures sent == old(sent) + if OnCommand(old(scanState), false).1 then [Turn(SCAN, false)] else []
    {
      match scanState {
        case ON =>
          sent := sent + [Turn(SCAN, false)];
          scanState := SwitchState.PROCESSING;
        case OFF =>
        case PROCESSING =>
      }
    }

    method BluetoothPowerOn()
      modifies this`powerState, this`sent
      ensures powerState == OnCommand(old(powerState), true).0
      ensures sent == old(sent) + if OnCommand(old(powerState), true).1 then [Turn(POWER, true)] else []
    {
      match powerState {
        case OFF =>
          powerState := SwitchState.PROCESSING;
          sent := sent + [Turn(POWER, true)];
        case ON =>
        case PROCESSING =>
      }
    }

    method BluetoothPowerOff()
      modifies this`powerState, this`sent
      ensures powerState == OnCommand(old(powerState), false).0
      ensures sent == old(sent) + if OnCommand(old(powerState), false).1 then [Turn(POWER, false)] else []
    {
      match powerState {
        case ON =>
          powerState := SwitchState.PROCESSING;
          sent := sent + [Turn(POWER, false)];
        case OFF =>
        case PROCESSING =>
      }
    }

    method StartScanBTDeviceNOTI(success: bool)
      modifies this`scanState, this`broadcasts
      ensures scanState == OnNoti(true, success)
      ensures broadcasts == old(broadcasts) + [Turned(SCAN, true, success)]
    {
      if !success {
        scanState := OFF;
        broadcasts := broadcasts + [Turned(SCAN, true, false)];
      } else {
        scanState := ON;
        broadcasts := broadcasts + [Turned(SCAN, true, true)];
      }
    }

    method StopScanBTDeviceNOTI(success: bool)
      modifies this`scanState, this`broadcasts
      ensures scanState == OnNoti(false, success)
      ensures broadcasts == old(broadcasts) + [Turned(SCAN, false, success)]
    {
      if !success {
        scanState := ON;
        broadcasts := broadcasts + [Turned(SCAN, false, false)];
      } else {
        scanState := OFF;
        broadcasts := broadcasts + [Turned(SCAN, false, true)];
      }
    }

    method BluetoothPowerOnNOTI(success: bool)
      modifies this`powerState, this`broadcasts
      ensures powerState == OnNoti(true, success)
      ensures broadcasts == old(broadcasts) + [Turned(POWER, true, success)]
    {
      if success {
        powerState := ON;
        broadcasts := broadcasts + [Turned(POWER, true, true)];
      } else {
        powerState := OFF;
        broadcasts := broadcasts + [Turned(POWER, true, false)];
      }
    }

    method BluetoothPowerOffNOTI(success: bool)
      modifies this`powerState, this`broadcasts
      ensures powerState == OnNoti(false, success)
      ensures broadcasts == old(broadcasts) + [Turned(POWER, false, success)]
    {
      if success {
        powerState := OFF;
        broadcasts := broadcasts + [Turned(POWER, false, true)];
      } else {
        powerState := ON;
        broadcasts := broadcasts + [Turned(POWER, false, false)];
      }
    }
  }
}
