/** The temperature: what StateView holds and what the members show is the last reading that succeeded. */
module TemperatureShown {
  import opened Wrappers
  import opened WebSocketServers
  import B = BroadcastOrder

  /** The last successful reading that core's MainWorker has handled; 0 before the first. */
  function LastReading(actions: seq<Action>): int
    decreases |actions|
  {
    if actions == [] then 0
    else
      var earlier := actions[..|actions| - 1];
      var a := actions[|actions| - 1];
      if a.Handle? && a.e.TemperatureRead? && Run(earlier).announcing.None? then a.e.celsius
      else LastReading(earlier)
  }

  /** The last successful temperature among what a client was sent; a failure says nothing about it. */
  function LastShown(ms: seq<Message>): Option<int>
    decreases |ms|
  {
    if ms == [] then None
    else if ms[|ms| - 1].Temperature? && ms[|ms| - 1].success then Some(ms[|ms| - 1].celsius)
    else LastShown(ms[..|ms| - 1])
  }

  lemma ShownNext(ms: seq<Message>, m: Message)
    ensures LastShown(ms + [m]) == if m.Temperature? && m.success then Some(m.celsius) else LastShown(ms)
  {
    assert (ms + [m])[..|ms + [m]| - 1] == ms;
  }

  predicate IsReading(m: Option<Message>) {
    m.Some? && m.value.Temperature? && m.value.success
  }

  /** The client is new: join has sent it nothing. */
  predicate Unwelcomed(s: System, k: nat) {
    B.IsJoining(s, k) && s.joining.value == SendTemperature
  }

  ghost predicate ClientInv(s: System, k: nat)
    requires k < |s.clients|
  {
    k in s.sessions && !Unwelcomed(s, k) && !IsReading(s.announcing) ==>
      LastShown(s.clients[k].session.sent) == Some(s.view.temperature)
  }

  ghost predicate Inv(s: System)
  {
    && (s.joining.Some? ==> s.clients != [])
    && (IsReading(s.announcing) ==> s.announcing.value.celsius == s.view.temperature)
    && forall k: nat | k < |s.clients| :: ClientInv(s, k)
  }

  lemma GreetKeeps(s: System, m: Message, next: Option<Join>)
    requires Inv(s) && s.joining.Some? && next != Some(SendTemperature)
    requires if s.joining.value == SendTemperature then m == Temperature(true, s.view.temperature) else !m.Temperature?
    ensures Inv(Greets(s, m, next))
  {
    var t := Greets(s, m, next);
    forall k: nat | k < |t.clients|
      ensures ClientInv(t, k)
    {
      assert ClientInv(s, k);
      ShownNext(s.clients[k].session.sent, m);
    }
  }

  lemma JoinKeeps(s: System)
    requires Inv(s) && s.joining.Some?
    ensures Inv(Joins(s, s.joining.value))
  {
    match s.joining.value {
      case SendTemperature => GreetKeeps(s, Temperature(true, s.view.temperature), Some(ReadRecord));
      case SendRecord(b) => GreetKeeps(s, InitialRecord(b), Some(ReadPower));
      case SendSettings(power, scan) => GreetKeeps(s, InitialSettings(power, scan), None);
      case _ =>
        var t := Joins(s, s.joining.value);
        forall k: nat | k < |t.clients|
          ensures ClientInv(t, k)
        {
          assert ClientInv(s, k);
        }
    }
  }

  lemma AnnounceKeeps(s: System)
    requires Inv(s) && s.announcing.Some? && s.joining.None?
    ensures Inv(Apply(s, Announce))
  {
    var t := Apply(s, Announce);
    forall k: nat | k < |t.clients|
      ensures ClientInv(t, k)
    {
      assert ClientInv(s, k);
      ShownNext(s.clients[k].session.sent, s.announcing.value);
    }
  }

  lemma HandlerMeans(v: View, e: Event)
    ensures var (w, m) := Handles(v, e);
            && w.temperature == (if e.TemperatureRead? then e.celsius else v.temperature)
            && IsReading(m) == (w.temperature != v.temperature)
            && (IsReading(m) ==> m.value.celsius == w.temperature)
            && (e.TemperatureFailed? ==> m == Some(Temperature(false, 0)))
  {
  }

  /** Nobody is sent anything; the view's temperature and what is announced about it stay or change together. */
  lemma OthersKeep(s: System, t: System)
    requires Inv(s) && t.joining == s.joining && |t.clients| == |s.clients| && t.sessions <= s.sessions
    requires forall k | 0 <= k < |s.clients| :: t.clients[k].session.sent == s.clients[k].session.sent
    requires IsReading(t.announcing) ==> t.announcing.value.celsius == t.view.temperature
    requires IsReading(t.announcing) || (t.view.temperature == s.view.temperature && !IsReading(s.announcing))
    ensures Inv(t)
  {
    forall k: nat | k < |t.clients|
      ensures ClientInv(t, k)
    {
      assert ClientInv(s, k);
    }
  }

  lemma ConnectKeeps(s: System)
    requires Inv(s) && s.joining.None?
    ensures Inv(Apply(s, Connect))
  {
    var t := Apply(s, Connect);
    forall k: nat | k < |t.clients|
      ensures ClientInv(t, k)
    {
      if k < |s.clients| {
        assert ClientInv(s, k) && t.clients[k] == s.clients[k];
      }
    }
  }

  lemma StepKeepsInv(s: System, a: Action)
    requires Inv(s)
    ensures Inv(Apply(s, a))
  {
    match a {
      case Handle(e) =>
        if s.announcing.None? {
          HandlerMeans(s.view, e);
          OthersKeep(s, Apply(s, a));
        }
      case Announce => if s.announcing.Some? && s.joining.None? { AnnounceKeeps(s); }
      case Connect => if s.joining.None? { ConnectKeeps(s); }
      case JoinStep => if s.joining.Some? { JoinKeeps(s); }
      case _ => OthersKeep(s, Apply(s, a));
    }
  }

  lemma {:induction false} RunKeepsInv(actions: seq<Action>)
    ensures Inv(Run(actions))
    decreases |actions|
  {
    if actions == [] {
    } else {
      RunKeepsInv(actions[..|actions| - 1]);
      StepKeepsInv(Run(actions[..|actions| - 1]), actions[|actions| - 1]);
    }
  }

  /** In every run StateView holds the last successful reading. */
  lemma {:induction false} ViewIsLastReading(actions: seq<Action>)
    ensures Run(actions).view.temperature == LastReading(actions)
    decreases |actions|
  {
    if actions == [] {
    } else {
      var earlier := actions[..|actions| - 1];
      ViewIsLastReading(earlier);
      var a := actions[|actions| - 1];
      if a.Handle? {
        HandlerMeans(Run(earlier).view, a.e);
      }
    }
  }

  /** In every run, every member shows the last successful reading, whenever it joined and whatever failed
      in between, unless the MainWorker is about to broadcast that reading. */
  lemma MembersShowTheReading(actions: seq<Action>, k: nat)
    requires var s := Run(actions);
             && k < |s.clients| && k in s.sessions && !Unwelcomed(s, k)
    ensures var s := Run(actions);
            if IsReading(s.announcing) then s.announcing == Some(Temperature(true, LastReading(actions)))
            else LastShown(s.clients[k].session.sent) == Some(LastReading(actions))
  {
    RunKeepsInv(actions);
    ViewIsLastReading(actions);
    assert ClientInv(Run(actions), k);
  }

  /** A reading that failed is told to everyone as a failure and changes nothing that is shown. */
  lemma FailureIsTold(actions: seq<Action>)
    requires Run(actions).announcing.None?
    ensures Run(actions + [Handle(TemperatureFailed)]).announcing == Some(Temperature(false, 0))
    ensures LastReading(actions + [Handle(TemperatureFailed)]) == LastReading(actions)
  {
    var longer := actions + [Handle(TemperatureFailed)];
    assert longer[..|longer| - 1] == actions;
  }
}
