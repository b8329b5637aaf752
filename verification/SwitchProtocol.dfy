/** A switch between core and the adapter: core's state machine (coremgr/src/Controller/HardwareHandler.cpp)
 * and hardwaremgr's two threads (hardwaremgr/src/BT/BluezDBus.cpp, hardwaremgr/src/Thread/BluetoothWorker.cpp).
 *
 * hardwaremgr's MainWorker sets the adapter and reports only a failure; it answers INITIALIZE_BLUETOOTH
 * with what BlueZ says the adapter is. Successes are reported by its BluetoothWorker, from the signals
 * that BlueZ sends when the adapter has changed. Both hold one mutex while they work, so each is one
 * step, but a reply overtakes the signals that wait on the same connection. */
module SwitchProtocol {
  import opened Wrappers
  import opened HardwareSwitches

  datatype Report = Report(on: bool, success: bool)

  datatype CoreEvent = FromClient(on: bool) | FromHardware(report: Report)

  datatype HwCommand = Turn(on: bool) | Initialize

  datatype System = System(
    core: SwitchState,
    coreQueue: seq<CoreEvent>,
    channel: seq<Report>,       // to core
    commands: seq<HwCommand>,   // on the way to hardwaremgr's MainWorker
    adapter: bool,              // what the adapter is
    signals: seq<bool>)         // PropertiesChanged signals that BluetoothWorker has not dispatched

  datatype Action =
    | ClientAsks(on: bool)
    | Joins                     // a client joins: core sends INITIALIZE_BLUETOOTH
    | CoreStep
    | Deliver
    | HwStep(works: bool)       // BlueZ grants the request or not
    | AdapterChanges(on: bool)  // by itself or by another program
    | Dispatch

  function Init(adapter: bool): System {
    System(OFF, [], [], [], adapter, [])
  }

  function St(on: bool): SwitchState {
    if on then ON else OFF
  }

  /** BlueZ sends a signal exactly when the adapter changes. */
  function Becomes(s: System, on: bool): System {
    if s.adapter == on then s else s.(adapter := on, signals := s.signals + [on])
  }

  function CoreHandles(s: System, e: CoreEvent): System
  {
    match e
    case FromClient(on) =>
      var (core, sent) := OnCommand(s.core, on);
      s.(core := core, commands := s.commands + if sent then [HwCommand.Turn(on)] else [])
    case FromHardware(r) => s.(core := OnNoti(r.on, r.success))
  }

  function Apply(s: System, a: Action): System
  {
    match a
    case ClientAsks(on) => s.(coreQueue := s.coreQueue + [FromClient(on)])
    case Joins => s.(commands := s.commands + [Initialize])
    case CoreStep =>
      if s.coreQueue == [] then s else CoreHandles(s.(coreQueue := s.coreQueue[1..]), s.coreQueue[0])
    case Deliver =>
      if s.channel == [] then s
      else s.(channel := s.channel[1..], coreQueue := s.coreQueue + [FromHardware(s.channel[0])])
    case HwStep(works) =>
      if s.commands == [] then s
      else
        var t := s.(commands := s.commands[1..]);
        (match s.commands[0]
         case Turn(on) => if works then Becomes(t, on) else t.(channel := t.channel + [Report(on, false)])
         case Initialize => if works then t.(channel := t.channel + [Report(t.adapter, true)]) else t)
    case AdapterChanges(on) => Becomes(s, on)
    case Dispatch =>
      if s.signals == [] then s
      else s.(signals := s.signals[1..], channel := s.channel + [Report(s.signals[0], true)])
  }

  function Run(adapter: bool, actions: seq<Action>): System
    decreases |actions|
  {
    if actions == [] then Init(adapter) else Apply(Run(adapter, actions[..|actions| - 1]), actions[|actions| - 1])
  }

  // ---------------------------------------------------------------- what core will show

  function Reports(q: seq<CoreEvent>): seq<Report>
  {
    if q == [] then [] else (if q[0].FromHardware? then [q[0].report] else []) + Reports(q[1..])
  }

  /** Reports sent and not handled by core yet. */
  function Pending(s: System): seq<Report> {
    Reports(s.coreQueue) + s.channel
  }

  /** The state core will be in once everything on its way to it has been handled: the last report decides. */
  function Foretold(s: System): SwitchState
  {
    if s.signals != [] then St(s.signals[|s.signals| - 1])
    else if Pending(s) != [] then OnNoti(Pending(s)[|Pending(s)| - 1].on, Pending(s)[|Pending(s)| - 1].success)
    else s.core
  }

  /** The newest command to turn the switch that is still on its way. */
  function NewestTurn(commands: seq<HwCommand>): seq<bool>
    decreases |commands|
  {
    if commands == [] then []
    else
      var last := commands[|commands| - 1];
      if last.Turn? then [last.on] else NewestTurn(commands[..|commands| - 1])
  }

  /** The last evidence about the adapter was true. A change, an answer to INITIALIZE_BLUETOOTH and a
      failure to turn the switch away from where it is are true evidence. A failure to turn it to where it
      already is misleads core, unless a signal is still to come. At the start core takes it for off. */
  ghost predicate Known(adapter: bool, actions: seq<Action>)
    decreases |actions|
  {
    if actions == [] then !adapter
    else
      var before := actions[..|actions| - 1];
      StaysKnown(Run(adapter, before), actions[|actions| - 1], Known(adapter, before))
  }

  predicate StaysKnown(s: System, a: Action, known: bool)
  {
    match a
    case HwStep(works) =>
      if s.commands == [] then known
      else
        (match s.commands[0]
         case Turn(on) => if works || s.signals != [] then known || (works && s.adapter != on) else s.adapter != on
         case Initialize => known || works)
    case AdapterChanges(on) => known || s.adapter != on
    case _ => known
  }

  // ---------------------------------------------------------------- invariant

  ghost predicate Inv(s: System, known: bool)
  {
    && (s.signals != [] ==> s.signals[|s.signals| - 1] == s.adapter && known)
    && (Foretold(s) != SwitchState.PROCESSING ==> (Foretold(s) == St(s.adapter) <==> known))
    && (Foretold(s) == SwitchState.PROCESSING && known ==> NewestTurn(s.commands) == [!s.adapter])
  }

  lemma {:induction false} ReportsConcat(a: seq<CoreEvent>, b: seq<CoreEvent>)
    ensures Reports(a + b) == Reports(a) + Reports(b)
  {
    if a == [] {
      assert a + b == b;
    } else {
      assert (a + b)[1..] == a[1..] + b;
      ReportsConcat(a[1..], b);
      var first := if a[0].FromHardware? then [a[0].report] else [];
      assert first + Reports(a[1..]) + Reports(b) == first + (Reports(a[1..]) + Reports(b));
    }
  }

  /** Nothing that only moves messages along changes what core will show. */
  lemma DeliverFrame(s: System)
    ensures Pending(Apply(s, Deliver)) == Pending(s)
  {
    if s.channel != [] {
      ReportsConcat(s.coreQueue, [FromHardware(s.channel[0])]);
      assert Reports([FromHardware(s.channel[0])]) == [s.channel[0]];
      assert s.channel == [s.channel[0]] + s.channel[1..];
    }
  }

  lemma ClientFrame(s: System, on: bool)
    ensures Pending(Apply(s, ClientAsks(on))) == Pending(s)
  {
    ReportsConcat(s.coreQueue, [FromClient(on)]);
    assert Reports([FromClient(on)]) == [];
  }

  lemma TurnsNext(commands: seq<HwCommand>, c: HwCommand)
    ensures NewestTurn(commands + [c]) == if c.Turn? then [c.on] else NewestTurn(commands)
  {
    assert (commands + [c])[..|commands + [c]| - 1] == commands;
  }

  lemma {:induction false} TurnsAfterFirst(commands: seq<HwCommand>)
    requires commands != []
    ensures NewestTurn(commands) ==
      if NewestTurn(commands[1..]) != [] then NewestTurn(commands[1..])
      else if commands[0].Turn? then [commands[0].on] else []
    decreases |commands|
  {
    if |commands| == 1 {
      assert commands[1..] == [] && commands[..0] == [];
    } else {
      var n := |commands| - 1;
      TurnsAfterFirst(commands[..n]);
      assert commands[1..][|commands[1..]| - 1] == commands[n];
      assert commands[1..][..|commands[1..]| - 1] == commands[..n][1..];
    }
  }

  lemma CoreStepFrame(s: System)
    requires s.coreQueue != []
    ensures var t := Apply(s, CoreStep);
            && t.signals == s.signals && t.adapter == s.adapter
            && if s.coreQueue[0].FromHardware? then
                 t.commands == s.commands && Foretold(t) == Foretold(s)
               else Pending(t) == Pending(s)
  {
    var t := Apply(s, CoreStep);
    assert t.coreQueue == s.coreQueue[1..] && t.channel == s.channel;
    if s.coreQueue[0].FromHardware? {
      assert Reports(s.coreQueue) == [s.coreQueue[0].report] + Reports(t.coreQueue);
      assert Pending(s) == [s.coreQueue[0].report] + Pending(t);
    } else {
      assert Reports(s.coreQueue) == [] + Reports(t.coreQueue);
    }
  }

  lemma CoreKeeps(s: System, known: bool)
    requires Inv(s, known) && s.coreQueue != []
    ensures Inv(Apply(s, CoreStep), known)
  {
    CoreStepFrame(s);
    if s.coreQueue[0].FromClient? {
      TurnsNext(s.commands, HwCommand.Turn(s.coreQueue[0].on));
      assert s.commands + [] == s.commands;
    }
  }

  lemma ChangeKeeps(s: System, on: bool, known: bool)
    requires Inv(s, known)
    ensures Inv(Becomes(s, on), known || s.adapter != on)
  {
  }

  lemma ReportKeeps(s: System, r: Report, known: bool, now: bool)
    requires Inv(s, known) && (s.signals != [] ==> now)
    requires s.signals == [] ==> (OnNoti(r.on, r.success) == St(s.adapter) <==> now)
    ensures Inv(s.(channel := s.channel + [r]), now)
  {
    var t := s.(channel := s.channel + [r]);
    assert Pending(t) == Pending(s) + [r];
  }

  /** hardwaremgr takes a command off: the newest one that turns the switch may go with it. */
  lemma TakenOff(s: System, known: bool)
    requires Inv(s, known) && s.commands != []
    requires s.commands[0].Turn? ==> s.commands[0].on == s.adapter
    ensures Inv(s.(commands := s.commands[1..]), known)
  {
    TurnsAfterFirst(s.commands);
    assert Pending(s.(commands := s.commands[1..])) == Pending(s);
  }

  /** Where the adapter is decides everything but the commands. */
  lemma Settled(s: System, t: System, known: bool)
    requires Inv(s, known) && t == s.(commands := t.commands) && Foretold(s) != SwitchState.PROCESSING
    ensures Inv(t, known)
  {
    assert Pending(t) == Pending(s);
  }

  lemma TurnWorks(s: System, on: bool, known: bool)
    requires Inv(s, known) && s.commands != [] && s.commands[0] == HwCommand.Turn(on) && s.adapter != on
    ensures Inv(Apply(s, HwStep(true)), true)
  {
    var u := Apply(s, HwStep(true));
    assert u.signals == s.signals + [on] && u.adapter == on;
    assert u.signals[|u.signals| - 1] == on;
  }

  lemma TurnFails(s: System, on: bool, known: bool)
    requires Inv(s, known) && s.commands != [] && s.commands[0] == HwCommand.Turn(on)
    ensures Inv(Apply(s, HwStep(false)), if s.signals != [] then known else s.adapter != on)
  {
    var u := Apply(s, HwStep(false));
    assert u.coreQueue == s.coreQueue && u.channel == s.channel + [Report(on, false)];
    assert Pending(u) == Pending(s) + [Report(on, false)];
  }

  lemma TurnKeeps(s: System, works: bool, known: bool)
    requires Inv(s, known) && s.commands != [] && s.commands[0].Turn?
    ensures Inv(Apply(s, HwStep(works)), StaysKnown(s, HwStep(works), known))
  {
    var on := s.commands[0].on;
    if works && s.adapter == on {
      TakenOff(s, known);
    } else if works {
      TurnWorks(s, on, known);
    } else {
      TurnFails(s, on, known);
    }
  }

  lemma InitializeKeeps(s: System, works: bool, known: bool)
    requires Inv(s, known) && s.commands != [] && s.commands[0].Initialize?
    ensures Inv(Apply(s, HwStep(works)), StaysKnown(s, HwStep(works), known))
  {
    TakenOff(s, known);
    if works {
      ReportKeeps(s.(commands := s.commands[1..]), Report(s.adapter, true), known, true);
    }
  }

  lemma DispatchKeeps(s: System, known: bool)
    requires Inv(s, known) && s.signals != []
    ensures Inv(Apply(s, Dispatch), known)
  {
    var t := Apply(s, Dispatch);
    assert Pending(t) == Pending(s) + [Report(s.signals[0], true)];
    if |s.signals| > 1 {
      assert t.signals[|t.signals| - 1] == s.signals[|s.signals| - 1];
    }
  }

  lemma StepKeepsInv(s: System, a: Action, known: bool)
    requires Inv(s, known)
    ensures Inv(Apply(s, a), StaysKnown(s, a, known))
  {
    match a {
      case ClientAsks(on) => ClientFrame(s, on);
      case Joins => TurnsNext(s.commands, Initialize);
      case CoreStep => if s.coreQueue != [] { CoreKeeps(s, known); }
      case Deliver => DeliverFrame(s);
      case HwStep(works) =>
        if s.commands != [] {
          if s.commands[0].Turn? {
            TurnKeeps(s, works, known);
          } else {
            InitializeKeeps(s, works, known);
          }
        }
      case AdapterChanges(on) => ChangeKeeps(s, on, known);
      case Dispatch => if s.signals != [] { DispatchKeeps(s, known); }
    }
  }

  lemma {:induction false} RunKeepsInv(adapter: bool, actions: seq<Action>)
    ensures Inv(Run(adapter, actions), Known(adapter, actions))
    decreases |actions|
  {
    if actions == [] {
    } else {
      var before := actions[..|actions| - 1];
      RunKeepsInv(adapter, before);
      StepKeepsInv(Run(adapter, before), actions[|actions| - 1], Known(adapter, before));
    }
  }

  // ---------------------------------------------------------------- core and the adapter

  /** Nothing is on its way to core. */
  predicate Quiet(s: System) {
    s.signals == [] && Pending(s) == []
  }

  /** In every run, when nothing is on its way to core: a core that does not wait shows the adapter if and
      only if the last evidence was true, and one that waits, while it was, has a command on its way that
      turns the adapter from where it is. */
  lemma CoreShowsTheAdapter(adapter: bool, actions: seq<Action>)
    requires Quiet(Run(adapter, actions))
    ensures var s := Run(adapter, actions);
            && (s.core != SwitchState.PROCESSING ==> (s.core == St(s.adapter) <==> Known(adapter, actions)))
            && (s.core == SwitchState.PROCESSING && Known(adapter, actions) ==> NewestTurn(s.commands) == [!s.adapter])
  {
    RunKeepsInv(adapter, actions);
  }

  /** Core waits and nothing is left that could end it. */
  predicate Stuck(s: System) {
    Quiet(s) && s.core == SwitchState.PROCESSING && s.commands == []
  }

  /** So core is stuck only if it was misled before: never while the last evidence was true. */
  lemma StuckWasMisled(adapter: bool, actions: seq<Action>)
    requires Stuck(Run(adapter, actions))
    ensures !Known(adapter, actions)
  {
    RunKeepsInv(adapter, actions);
  }

  /** And it stays stuck, whatever clients ask, until a client joins or the adapter changes by itself. */
  lemma StuckStays(s: System, a: Action)
    requires Stuck(s) && a != Joins && (a.AdapterChanges? ==> a.on == s.adapter)
    ensures Stuck(Apply(s, a))
  {
    match a {
      case ClientAsks(on) => ClientFrame(s, on);
      case CoreStep =>
        if s.coreQueue != [] {
          CoreStepFrame(s);
          assert Reports(s.coreQueue) == [];
          assert s.coreQueue[0].FromClient?;
        }
      case _ =>
    }
  }

  /** A client that joins repairs it: once BlueZ has answered, core will show what the adapter is. */
  lemma JoinRepairs(adapter: bool, actions: seq<Action>)
    requires var s := Run(adapter, actions);
             s.commands != [] && s.commands[0] == Initialize
    ensures var t := Apply(Run(adapter, actions), HwStep(true));
            Foretold(t) == St(t.adapter)
  {
    RunKeepsInv(adapter, actions);
    var s := Run(adapter, actions);
    StepKeepsInv(s, HwStep(true), Known(adapter, actions));
    var t := Apply(s, HwStep(true));
    assert s.signals == [] ==> Pending(t) == Pending(s) + [Report(s.adapter, true)];
  }

  // ---------------------------------------------------------------- a join settles everything

  /** A step of the managers, with BlueZ granting what is asked. */
  predicate Grants(a: Action) {
    a == CoreStep || a == Deliver || a == HwStep(true) || a == Dispatch
  }

  predicate Granting(actions: seq<Action>) {
    forall i | 0 <= i < |actions| :: Grants(actions[i])
  }

  predicate AtRest(s: System) {
    s.coreQueue == [] && s.channel == [] && s.commands == [] && s.signals == []
  }

  function EventWork(q: seq<CoreEvent>): nat
  {
    if q == [] then 0 else (if q[0].FromClient? then 10 else 2) + EventWork(q[1..])
  }

  function Work(s: System): nat {
    EventWork(s.coreQueue) + 8 * |s.commands| + 6 * |s.signals| + 4 * |s.channel|
  }

  lemma {:induction false} EventWorkConcat(a: seq<CoreEvent>, b: seq<CoreEvent>)
    ensures EventWork(a + b) == EventWork(a) + EventWork(b)
  {
    if a == [] {
      assert a + b == b;
    } else {
      assert (a + b)[1..] == a[1..] + b;
      EventWorkConcat(a[1..], b);
    }
  }

  function NextGrant(s: System): Action {
    if s.coreQueue != [] then CoreStep
    else if s.channel != [] then Deliver
    else if s.signals != [] then Dispatch
    else HwStep(true)
  }

  predicate Asked(s: System) {
    exists i :: 0 <= i < |s.commands| && s.commands[i] == Initialize
  }

  lemma GrantWorks(s: System, known: bool)
    requires !AtRest(s)
    ensures var t := Apply(s, NextGrant(s));
            && Work(t) < Work(s)
            && (Asked(s) || known ==> Asked(t) || StaysKnown(s, NextGrant(s), known))
  {
    var t := Apply(s, NextGrant(s));
    if s.coreQueue != [] {
      assert t.coreQueue == s.coreQueue[1..] && s.commands <= t.commands;
      assert |t.commands| <= |s.commands| + One(s.coreQueue[0].FromClient?);
      if i :| 0 <= i < |s.commands| && s.commands[i] == Initialize {
        assert t.commands[i] == Initialize;
      }
    } else if s.channel != [] {
      EventWorkConcat(s.coreQueue, [FromHardware(s.channel[0])]);
      assert EventWork([FromHardware(s.channel[0])]) == 2;
    } else if s.signals == [] {
      if i :| 0 <= i < |s.commands| && s.commands[i] == Initialize {
        assert i > 0 ==> t.commands[i - 1] == Initialize;
      }
    }
  }

  lemma OneMoreKnown(adapter: bool, actions: seq<Action>, a: Action)
    ensures Run(adapter, actions + [a]) == Apply(Run(adapter, actions), a)
    ensures Known(adapter, actions + [a]) == StaysKnown(Run(adapter, actions), a, Known(adapter, actions))
  {
    assert (actions + [a])[..|actions + [a]| - 1] == actions;
  }

  lemma GrantingFirst(actions: seq<Action>, a: Action, more: seq<Action>)
    requires Grants(a) && Granting(more)
    ensures Granting([a] + more) && actions + [a] + more == actions + ([a] + more)
  {
  }

  lemma {:induction false} Rests(adapter: bool, actions: seq<Action>) returns (more: seq<Action>)
    requires Asked(Run(adapter, actions)) || Known(adapter, actions)
    ensures Granting(more) && AtRest(Run(adapter, actions + more)) && Known(adapter, actions + more)
    decreases Work(Run(adapter, actions))
  {
    var s := Run(adapter, actions);
    if AtRest(s) {
      more := [];
      assert actions + more == actions;
    } else {
      GrantWorks(s, Known(adapter, actions));
      OneMoreKnown(adapter, actions, NextGrant(s));
      var rest := Rests(adapter, actions + [NextGrant(s)]);
      GrantingFirst(actions, NextGrant(s), rest);
      more := [NextGrant(s)] + rest;
    }
  }

  /** From every run, misled or stuck as core may be: if a client joins, the managers' own steps, with
      BlueZ granting what is asked, come to rest with core showing the adapter. */
  lemma JoinSettles(adapter: bool, actions: seq<Action>) returns (more: seq<Action>)
    ensures Granting(more) && AtRest(Run(adapter, actions + [Joins] + more))
    ensures var t := Run(adapter, actions + [Joins] + more);
            t.core == St(t.adapter)
  {
    var longer, s := Next(adapter, actions, Joins);
    assert s.commands[|s.commands| - 1] == Initialize;
    more := Rests(adapter, longer);
    CoreShowsTheAdapter(adapter, longer + more);
  }

  lemma Next(adapter: bool, actions: seq<Action>, a: Action) returns (longer: seq<Action>, s: System)
    ensures longer == actions + [a]
    ensures s == Run(adapter, longer) == Apply(Run(adapter, actions), a)
  {
    longer := actions + [a];
    s := Run(adapter, longer);
    assert longer[..|longer| - 1] == actions;
  }

  /** A client asks for on and the adapter turns on by itself meanwhile; the command then fails, and core
      is told that the switch is off. */
  lemma IsMisled() returns (actions: seq<Action>, s: System)
    ensures s == Run(false, actions) == System(OFF, [], [], [], true, [])
  {
    actions, s := Next(false, [], ClientAsks(true));
    actions, s := Next(false, actions, CoreStep);
    actions, s := Next(false, actions, AdapterChanges(true));
    actions, s := Next(false, actions, Dispatch);
    actions, s := Next(false, actions, HwStep(false));
    assert s == System(SwitchState.PROCESSING, [], [Report(true, true), Report(true, false)], [], true, []);
    actions, s := Next(false, actions, Deliver);
    actions, s := Next(false, actions, CoreStep);
    actions, s := Next(false, actions, Deliver);
    actions, s := Next(false, actions, CoreStep);
  }

  /** The next request is granted, changes nothing, and is never reported: core waits. */
  lemma CoreCanBeStuck()
    ensures exists actions: seq<Action> :: Stuck(Run(false, actions))
  {
    var actions, s := IsMisled();
    actions, s := Next(false, actions, ClientAsks(true));
    actions, s := Next(false, actions, CoreStep);
    actions, s := Next(false, actions, HwStep(true));
    assert Stuck(s);
  }
}
