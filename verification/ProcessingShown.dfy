/** What each client shows while a flag is PROCESSING: it depends on when join read the flag for it. */
module ProcessingShown {
  import opened Wrappers
  import opened WebSocketServers
  import opened LateJoiners
  import B = BroadcastOrder
  import H = HardwareSwitches

  /** The value of the flag when it was last not PROCESSING. */
  ghost function LastSettled(actions: seq<Action>, topic: Topic): bool
    decreases |actions|
  {
    if actions == [] then IsOn(Run([]).view, topic)
    else if !Busy(Run(actions).view, topic) then IsOn(Run(actions).view, topic)
    else LastSettled(actions[..|actions| - 1], topic)
  }

  /** The thread inside join reads the flag for client `k`. */
  predicate ReadsFlag(s: System, a: Action, k: nat, topic: Topic) {
    && a == JoinStep && B.IsJoining(s, k)
    && match s.joining.value
       case ReadRecord => topic == RECORD
       case ReadPower => topic == SWITCH(H.POWER)
       case ReadScan(_) => topic == SWITCH(H.SCAN)
       case _ => false
  }

  predicate Tells(s: System, a: Action, topic: Topic) {
    a == Announce && s.joining.None? && InHandler(s, topic)
  }

  /** Join read the flag for client `k` while it was PROCESSING, and nothing was broadcast on it since. */
  ghost predicate Late(actions: seq<Action>, k: nat, topic: Topic)
    decreases |actions|
  {
    actions != [] &&
    StaysLate(Run(actions[..|actions| - 1]), actions[|actions| - 1], k, topic, Late(actions[..|actions| - 1], k, topic))
  }

  predicate StaysLate(s: System, a: Action, k: nat, topic: Topic, late: bool) {
    if ReadsFlag(s, a, k, topic) then Busy(s.view, topic) else late && !Tells(s, a, topic)
  }

  // ---------------------------------------------------------------- invariant

  predicate ShowsBusy(s: System, topic: Topic, flag: Option<bool>, late: bool, settled: bool) {
    Busy(s.view, topic) && flag.Some? ==> flag.value == (settled && !late)
  }

  /** What client `k` shows, or will be sent next, while the flag is PROCESSING; and nobody is late once
      the flag is steady. */
  ghost predicate LateInv(s: System, topic: Topic, k: nat, late: bool, settled: bool)
    requires k < |s.clients|
  {
    && (Steady(s, topic) ==> !late)
    && (k in s.sessions ==> ShowsBusy(s, topic, Shown(topic, s.clients[k].session.sent), late, settled))
    && (B.IsJoining(s, k) ==> ShowsBusy(s, topic, Read(s, topic), late, settled))
    && (Unsent(s, k, topic) ==> Shown(topic, s.clients[k].session.sent) == None)
  }

  /** Join has not come to this part of the snapshot. */
  predicate Unsent(s: System, k: nat, topic: Topic) {
    B.IsJoining(s, k) && (topic == RECORD ==> B.Stage(s.joining.value) < 2)
  }

  /** LastSettled, one action later. */
  function Settles(t: System, topic: Topic, settled: bool): bool {
    if !Busy(t.view, topic) then IsOn(t.view, topic) else settled
  }

  lemma HandleKeepsLate(s: System, e: Event, topic: Topic, k: nat, late: bool, settled: bool)
    requires Inv(s, topic) && s.announcing.None? && k < |s.clients| && LateInv(s, topic, k, late, settled)
    requires !Busy(s.view, topic) ==> settled == IsOn(s.view, topic)
    ensures var t := Apply(s, Handle(e));
            LateInv(t, topic, k, late, Settles(t, topic, settled))
  {
    var t := Apply(s, Handle(e));
    HandlerMeans(s.view, e, topic);
    assert t.clients == s.clients && t.sessions == s.sessions && t.joining == s.joining;
    assert Read(t, topic) == Read(s, topic);
    assert ClientInv(s, topic, k);
  }

  lemma AnnounceKeepsLate(s: System, topic: Topic, k: nat, late: bool, settled: bool)
    requires Inv(s, topic) && s.announcing.Some? && s.joining.None? && k < |s.clients|
    requires LateInv(s, topic, k, late, settled)
    ensures var t := Apply(s, Announce);
            LateInv(t, topic, k, late && !Tells(s, Announce, topic), settled)
  {
    var t := Apply(s, Announce);
    ShownNext(topic, s.clients[k].session.sent, s.announcing.value);
    assert t.view == s.view;
  }

  /** What join sends is what it has read. */
  lemma GreetKeepsLate(s: System, m: Message, next: Option<Join>, topic: Topic, k: nat, late: bool, settled: bool)
    requires s.joining.Some? && k < |s.clients| && LateInv(s, topic, k, late, settled)
    requires Decides(m, topic) == Read(s, topic) && Read(Greets(s, m, next), topic) == None
    requires next.Some? ==> Unsent(Greets(s, m, next), k, topic) ==> Unsent(s, k, topic) && Read(s, topic) == None
    ensures LateInv(Greets(s, m, next), topic, k, late, settled)
  {
    var t := Greets(s, m, next);
    assert t.view == s.view && t.announcing == s.announcing && t.sessions == s.sessions;
    if B.IsJoining(s, k) {
      ShownNext(topic, s.clients[k].session.sent, m);
    } else {
      assert t.clients[k] == s.clients[k];
    }
  }

  lemma ReadKeepsLate(s: System, topic: Topic, k: nat, late: bool, settled: bool)
    requires k < |s.clients| && LateInv(s, topic, k, late, settled) && s.joining.Some?
    requires s.joining.value.ReadRecord? || s.joining.value.ReadPower? || s.joining.value.ReadScan?
    ensures var t := Apply(s, JoinStep);
            LateInv(t, topic, k, StaysLate(s, JoinStep, k, topic, late), settled)
  {
    var t := Apply(s, JoinStep);
    assert t == s.(joining := t.joining) && t.joining.Some?;
    if ReadsFlag(s, JoinStep, k, topic) {
      assert Unsent(s, k, topic) && Read(t, topic) == Some(IsOn(s.view, topic));
    }
  }

  lemma SettingsKeepLate(s: System, power: bool, scan: bool, topic: Topic, k: nat, late: bool, settled: bool)
    requires s.joining == Some(SendSettings(power, scan)) && k < |s.clients| && LateInv(s, topic, k, late, settled)
    ensures LateInv(Greets(s, InitialSettings(power, scan), None), topic, k, late, settled)
  {
    assert topic.SWITCH? ==> topic.what == H.POWER || topic.what == H.SCAN;
    GreetKeepsLate(s, InitialSettings(power, scan), None, topic, k, late, settled);
  }

  lemma JoinKeepsLate(s: System, topic: Topic, k: nat, late: bool, settled: bool)
    requires s.joining.Some? && k < |s.clients| && LateInv(s, topic, k, late, settled)
    ensures LateInv(Apply(s, JoinStep), topic, k, StaysLate(s, JoinStep, k, topic, late), settled)
  {
    match s.joining.value {
      case SendTemperature =>
        GreetKeepsLate(s, Temperature(true, s.view.temperature), Some(ReadRecord), topic, k, late, settled);
      case SendRecord(b) => GreetKeepsLate(s, InitialRecord(b), Some(ReadPower), topic, k, late, settled);
      case SendSettings(power, scan) => SettingsKeepLate(s, power, scan, topic, k, late, settled);
      case _ => ReadKeepsLate(s, topic, k, late, settled);
    }
  }

  lemma JoinSeesSameView(s: System)
    ensures Apply(s, JoinStep).view == s.view && |Apply(s, JoinStep).clients| == |s.clients|
  {
  }

  /** A step that sends nobody anything, reads nothing, and adds no member among these clients. */
  lemma SameKeepsLate(s: System, t: System, topic: Topic, k: nat, late: bool, settled: bool)
    requires k < |s.clients| && k < |t.clients| && LateInv(s, topic, k, late, settled)
    requires t.view == s.view && t.announcing == s.announcing
    requires t.clients[k].session.sent == s.clients[k].session.sent && (k in t.sessions ==> k in s.sessions)
    requires B.IsJoining(t, k) ==> t.joining == s.joining && |t.clients| == |s.clients|
    ensures LateInv(t, topic, k, late, settled)
  {
  }

  lemma ConnectionKeepsLate(s: System, a: Action, topic: Topic, k: nat, late: bool, settled: bool)
    requires k < |s.clients| && LateInv(s, topic, k, late, settled)
    requires a == Connect || a.Disconnect? || a.DoWrite? || a.Complete?
    ensures var t := Apply(s, a);
            k < |t.clients| && t.view == s.view && LateInv(t, topic, k, late, settled)
  {
    var t := Apply(s, a);
    assert t.clients[k].session.sent == s.clients[k].session.sent;
    SameKeepsLate(s, t, topic, k, late, settled);
  }

  lemma StepKeepsLate(s: System, a: Action, topic: Topic, k: nat, late: bool, settled: bool)
    requires Inv(s, topic) && k < |s.clients| && LateInv(s, topic, k, late, settled)
    requires !Busy(s.view, topic) ==> settled == IsOn(s.view, topic)
    ensures var t := Apply(s, a);
            k < |t.clients| && LateInv(t, topic, k, StaysLate(s, a, k, topic, late), Settles(t, topic, settled))
  {
    match a {
      case Handle(e) => if s.announcing.None? { HandleKeepsLate(s, e, topic, k, late, settled); }
      case Announce => if s.announcing.Some? && s.joining.None? { AnnounceKeepsLate(s, topic, k, late, settled); }
      case JoinStep =>
        JoinSeesSameView(s);
        if s.joining.Some? { JoinKeepsLate(s, topic, k, late, settled); }
      case _ => ConnectionKeepsLate(s, a, topic, k, late, settled);
    }
  }

  /** A client that is not there yet has been read nothing. */
  lemma {:induction false} NotThereNotLate(actions: seq<Action>, k: nat, topic: Topic)
    requires k >= |Run(actions).clients|
    ensures !Late(actions, k, topic)
    decreases |actions|
  {
    if actions == [] {
    } else {
      ClientsStay(Run(actions[..|actions| - 1]), actions[|actions| - 1]);
      NotThereNotLate(actions[..|actions| - 1], k, topic);
    }
  }

  lemma ClientsStay(s: System, a: Action)
    ensures |s.clients| <= |Apply(s, a).clients|
    ensures |s.clients| < |Apply(s, a).clients| ==>
      a == Connect && s.joining.None? && Apply(s, a).clients[|s.clients|].session.sent == []
  {
  }

  lemma SettledIs(actions: seq<Action>, topic: Topic)
    ensures !Busy(Run(actions).view, topic) ==> LastSettled(actions, topic) == IsOn(Run(actions).view, topic)
    ensures actions != [] ==>
      LastSettled(actions, topic) == Settles(Run(actions), topic, LastSettled(actions[..|actions| - 1], topic))
  {
  }

  lemma {:induction false} RunKeepsLate(actions: seq<Action>, topic: Topic, k: nat)
    requires k < |Run(actions).clients|
    ensures LateInv(Run(actions), topic, k, Late(actions, k, topic), LastSettled(actions, topic))
    decreases |actions|
  {
    if actions == [] {
    } else {
      var before := actions[..|actions| - 1];
      var s := Run(before);
      SettledIs(actions, topic);
      SettledIs(before, topic);
      if k < |s.clients| {
        RunKeepsLate(before, topic, k);
        RunKeepsInv(before, topic);
        StepKeepsLate(s, actions[|actions| - 1], topic, k, Late(before, k, topic), LastSettled(before, topic));
      } else {
        ClientsStay(s, actions[|actions| - 1]);
        NotThereNotLate(before, k, topic);
        assert Run(actions).joining == Some(SendTemperature);
      }
    }
  }

  // ---------------------------------------------------------------- who shows what

  /** In every run, while a flag is PROCESSING: a member for which join read it before shows the last
      settled value, and one for which join read it meanwhile shows "off". */
  lemma ShownWhileProcessing(actions: seq<Action>, k: nat, topic: Topic)
    requires var s := Run(actions);
             k < |s.clients| && k in s.sessions && !B.IsJoining(s, k) && Busy(s.view, topic)
    ensures Shown(topic, Run(actions).clients[k].session.sent) ==
      Some(LastSettled(actions, topic) && !Late(actions, k, topic))
  {
    RunKeepsLate(actions, topic, k);
    RunKeepsInv(actions, topic);
    assert ClientInv(Run(actions), topic, k);
  }

  /** So two members disagree if and only if the last settled value was "on" and exactly one of them was
      read the flag meanwhile. */
  lemma DisagreeIffOneIsLate(actions: seq<Action>, i: nat, j: nat, topic: Topic)
    requires var s := Run(actions);
             && i < |s.clients| && i in s.sessions && !B.IsJoining(s, i)
             && j < |s.clients| && j in s.sessions && !B.IsJoining(s, j) && Busy(s.view, topic)
    ensures var s := Run(actions);
            (Shown(topic, s.clients[i].session.sent) != Shown(topic, s.clients[j].session.sent))
              == (LastSettled(actions, topic) && Late(actions, i, topic) != Late(actions, j, topic))
  {
    ShownWhileProcessing(actions, i, topic);
    ShownWhileProcessing(actions, j, topic);
  }
}
