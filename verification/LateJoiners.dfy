/** Late joiners: a client that starts from join's snapshot and replays the notifications shows what
 * StateView holds, whenever it joined. */
module LateJoiners {
  import opened Wrappers
  import opened WebSocketServers
  import B = BroadcastOrder
  import R = RecordHandlers
  import H = HardwareSwitches

  /** The flags that clients mirror. */
  datatype Topic = RECORD | SWITCH(what: H.Switch)

  predicate Busy(v: View, topic: Topic) {
    if topic == RECORD then v.record == R.RecordState.PROCESSING else Get(v, topic.what) == H.SwitchState.PROCESSING
  }

  predicate IsOn(v: View, topic: Topic) {
    if topic == RECORD then IsRecording(v) else Get(v, topic.what) == H.ON
  }

  /** What one message says about the flag: a snapshot says it outright, a notification means what
      core's own handler makes of it. */
  function Decides(m: Message, topic: Topic): Option<bool>
  {
    match m
    case InitialRecord(b) => if topic == RECORD then Some(b) else None
    case InitialSettings(power, scan) =>
      if topic == SWITCH(H.POWER) then Some(power) else if topic == SWITCH(H.SCAN) then Some(scan) else None
    case RecordNoti(w) =>
      if topic == RECORD && w.kind != R.FILTER_NOTI then
        Some(R.OnNoti(R.RecordState.PROCESSING, R.Noti(w.kind, w.success, 0)) == R.RecordState.RECORDING)
      else None
    case SwitchNoti(x) => if topic == SWITCH(x.what) then Some(H.OnNoti(x.on, x.success) == H.ON) else None
    case _ => None
  }

  /** What a client shows after `ms`; nothing before the first message on the topic. */
  function Shown(topic: Topic, ms: seq<Message>): Option<bool>
    decreases |ms|
  {
    if ms == [] then None
    else
      var m := ms[|ms| - 1];
      if Decides(m, topic).Some? then Decides(m, topic) else Shown(topic, ms[..|ms| - 1])
  }

  lemma ShownNext(topic: Topic, ms: seq<Message>, m: Message)
    ensures Shown(topic, ms + [m]) == if Decides(m, topic).Some? then Decides(m, topic) else Shown(topic, ms)
  {
    assert (ms + [m])[..|ms + [m]| - 1] == ms;
  }

  /** A handler is between its state write and its broadcast on this topic. */
  predicate InHandler(s: System, topic: Topic) {
    s.announcing.Some? && Decides(s.announcing.value, topic).Some?
  }

  predicate Steady(s: System, topic: Topic) {
    !Busy(s.view, topic) && !InHandler(s, topic)
  }

  // ---------------------------------------------------------------- invariant

  /** The flag that the thread inside join has read and not sent yet. */
  function Read(s: System, topic: Topic): Option<bool>
  {
    match s.joining
    case None => None
    case Some(j) =>
      match j
      case SendRecord(b) => if topic == RECORD then Some(b) else None
      case ReadScan(power) => if topic == SWITCH(H.POWER) then Some(power) else None
      case SendSettings(power, scan) =>
        if topic == SWITCH(H.POWER) then Some(power) else if topic == SWITCH(H.SCAN) then Some(scan) else None
      case _ => None
  }

  predicate Agrees(s: System, topic: Topic, flag: Option<bool>) {
    Steady(s, topic) && flag.Some? ==> flag.value == IsOn(s.view, topic)
  }

  /** The client has its part of the snapshot. */
  predicate Informed(s: System, k: nat, topic: Topic) {
    k in s.sessions && (B.IsJoining(s, k) ==> topic == RECORD && B.Stage(s.joining.value) == 2)
  }

  ghost predicate ClientInv(s: System, topic: Topic, k: nat)
    requires k < |s.clients|
  {
    k in s.sessions ==>
      && Agrees(s, topic, Shown(topic, s.clients[k].session.sent))
      && (Informed(s, k, topic) ==> Shown(topic, s.clients[k].session.sent).Some?)
  }

  ghost predicate Inv(s: System, topic: Topic)
  {
    && (s.joining.Some? ==> s.clients != [])
    && (InHandler(s, topic) ==>
          !Busy(s.view, topic) && Decides(s.announcing.value, topic).value == IsOn(s.view, topic))
    && Agrees(s, topic, Read(s, topic))
    && (forall k: nat | k < |s.clients| :: ClientInv(s, topic, k))
  }

  /** A handler either leaves the flag and says nothing about it, or makes it busy, or settles it and
      then broadcasts exactly what it settled. */
  lemma HandlerMeans(v: View, e: Event, topic: Topic)
    ensures var (w, m) := Handles(v, e);
            if m.Some? && Decides(m.value, topic).Some? then
              !Busy(w, topic) && Decides(m.value, topic).value == IsOn(w, topic)
            else Busy(w, topic) || (!Busy(v, topic) && IsOn(w, topic) == IsOn(v, topic))
  {
  }

  /** A client's request makes its flag PROCESSING when that is settled the other way, and changes nothing else. */
  lemma RequestMeans(v: View, turn: H.Command, cmd: R.Command)
    ensures var (w, m) := Handles(v, SwitchCommand(turn));
            var settled := if turn.on then H.OFF else H.ON;
            && m == None && w.record == v.record && w.temperature == v.temperature
            && (turn.what == H.POWER ==> w.scan == v.scan) && (turn.what == H.SCAN ==> w.power == v.power)
            && Get(w, turn.what) ==
                 if Get(v, turn.what) == settled then H.SwitchState.PROCESSING else Get(v, turn.what)
    ensures var (w, m) := Handles(v, RecordCommand(cmd));
            var settled := if cmd == R.START then R.STOPPED else R.RecordState.RECORDING;
            m == None && w == v.(record := if v.record == settled then R.RecordState.PROCESSING else v.record)
  {
  }

  lemma HandleKeeps(s: System, e: Event, topic: Topic)
    requires Inv(s, topic) && s.announcing.None?
    ensures Inv(Apply(s, Handle(e)), topic)
  {
    HandlerMeans(s.view, e, topic);
    var t := Apply(s, Handle(e));
    assert t.clients == s.clients && t.sessions == s.sessions && t.joining == s.joining;
    assert Read(t, topic) == Read(s, topic);
    assert Steady(t, topic) ==> Steady(s, topic) && IsOn(t.view, topic) == IsOn(s.view, topic);
    forall k: nat | k < |t.clients|
      ensures ClientInv(t, topic, k)
    {
      assert ClientInv(s, topic, k);
    }
  }

  lemma AnnounceKeeps(s: System, topic: Topic)
    requires Inv(s, topic) && s.announcing.Some? && s.joining.None?
    ensures Inv(Apply(s, Announce), topic)
  {
    var t := Apply(s, Announce);
    forall k: nat | k < |t.clients|
      ensures ClientInv(t, topic, k)
    {
      assert ClientInv(s, topic, k);
      ShownNext(topic, s.clients[k].session.sent, s.announcing.value);
    }
  }

  lemma ConnectKeeps(s: System, topic: Topic)
    requires Inv(s, topic) && s.joining.None?
    ensures Inv(Apply(s, Connect), topic)
  {
    var t := Apply(s, Connect);
    forall k: nat | k < |t.clients|
      ensures ClientInv(t, topic, k)
    {
      if k < |s.clients| {
        assert ClientInv(s, topic, k) && t.clients[k] == s.clients[k];
      } else {
        assert t.clients[k].session.sent == [];
      }
    }
  }

  lemma GreetKeeps(s: System, m: Message, next: Option<Join>, topic: Topic)
    requires Inv(s, topic) && s.joining.Some?
    requires Agrees(s, topic, Decides(m, topic))
    requires var t := Greets(s, m, next);
             && Read(t, topic) == None
             && (Informed(t, |s.clients| - 1, topic) ==> Informed(s, |s.clients| - 1, topic) || Decides(m, topic).Some?)
    ensures Inv(Greets(s, m, next), topic)
  {
    var t := Greets(s, m, next);
    forall k: nat | k < |t.clients|
      ensures ClientInv(t, topic, k)
    {
      assert ClientInv(s, topic, k);
      ShownNext(topic, s.clients[k].session.sent, m);
    }
  }

  lemma ReadKeeps(s: System, t: System, topic: Topic)
    requires Inv(s, topic) && s.joining.Some? && t == s.(joining := t.joining) && t.joining.Some?
    requires B.Stage(t.joining.value) == B.Stage(s.joining.value) && Agrees(t, topic, Read(t, topic))
    ensures Inv(t, topic)
  {
    forall k: nat | k < |t.clients|
      ensures ClientInv(t, topic, k)
    {
      assert ClientInv(s, topic, k);
    }
  }

  lemma JoinKeeps(s: System, topic: Topic)
    requires Inv(s, topic) && s.joining.Some?
    ensures Inv(Joins(s, s.joining.value), topic)
  {
    match s.joining.value {
      case SendTemperature => GreetKeeps(s, Temperature(true, s.view.temperature), Some(ReadRecord), topic);
      case SendRecord(b) => GreetKeeps(s, InitialRecord(b), Some(ReadPower), topic);
      case SendSettings(power, scan) =>
        assert topic.SWITCH? ==> topic.what == H.POWER || topic.what == H.SCAN;
        GreetKeeps(s, InitialSettings(power, scan), None, topic);
      case _ => ReadKeeps(s, Joins(s, s.joining.value), topic);
    }
  }

  /** A step of the connections: nobody is sent anything, and at most a member leaves. */
  lemma ConnectionsKeep(s: System, t: System, topic: Topic)
    requires Inv(s, topic) && t.view == s.view && t.announcing == s.announcing && t.joining == s.joining
    requires t.sessions <= s.sessions && |t.clients| == |s.clients|
    requires forall k | 0 <= k < |s.clients| :: t.clients[k].session.sent == s.clients[k].session.sent
    ensures Inv(t, topic)
  {
    assert Read(t, topic) == Read(s, topic);
    forall k: nat | k < |t.clients|
      ensures ClientInv(t, topic, k)
    {
      assert ClientInv(s, topic, k);
    }
  }

  lemma StepKeepsInv(s: System, a: Action, topic: Topic)
    requires Inv(s, topic)
    ensures Inv(Apply(s, a), topic)
  {
    match a {
      case Handle(e) => if s.announcing.None? { HandleKeeps(s, e, topic); }
      case Announce => if s.announcing.Some? && s.joining.None? { AnnounceKeeps(s, topic); }
      case Connect => if s.joining.None? { ConnectKeeps(s, topic); }
      case JoinStep => if s.joining.Some? { JoinKeeps(s, topic); }
      case _ => ConnectionsKeep(s, Apply(s, a), topic);
    }
  }

  lemma {:induction false} RunKeepsInv(actions: seq<Action>, topic: Topic)
    ensures Inv(Run(actions), topic)
    decreases |actions|
  {
    if actions == [] {
    } else {
      RunKeepsInv(actions[..|actions| - 1], topic);
      StepKeepsInv(Run(actions[..|actions| - 1]), actions[|actions| - 1], topic);
    }
  }

  // ---------------------------------------------------------------- convergence

  /** In every run: while a flag is not PROCESSING and no handler is between writing and broadcasting it,
      every member that has joined shows it as StateView has it, whenever it joined. */
  lemma MembersShowTheView(actions: seq<Action>, k: nat, topic: Topic)
    requires var s := Run(actions);
             k < |s.clients| && k in s.sessions && !B.IsJoining(s, k) && Steady(s, topic)
    ensures var s := Run(actions);
            Shown(topic, s.clients[k].session.sent) == Some(IsOn(s.view, topic))
  {
    RunKeepsInv(actions, topic);
    assert ClientInv(Run(actions), topic, k);
  }

  /** And once its write queue has drained, so does what it has received. */
  lemma ReceiversShowTheView(actions: seq<Action>, k: nat, topic: Topic)
    requires var s := Run(actions);
             && k < |s.clients| && k in s.sessions && !B.IsJoining(s, k) && Steady(s, topic)
             && s.clients[k].session.queue == []
    ensures var s := Run(actions);
            Shown(topic, B.Delivered(s.clients[k])) == Some(IsOn(s.view, topic))
  {
    MembersShowTheView(actions, k, topic);
    B.ReceivesInOrder(actions, k);
  }

  // ---------------------------------------------------------------- while a flag is PROCESSING

  lemma OneMore(actions: seq<Action>, a: Action) returns (longer: seq<Action>, s: System)
    ensures longer == actions + [a]
    ensures s == Run(longer) == Apply(Run(actions), a)
  {
    longer := actions + [a];
    s := Run(longer);
    assert longer[..|longer| - 1] == actions;
  }

  /** The newest client is inside join and has been shown the record state of this moment. */
  ghost predicate Welcomed(s: System, before: System)
  {
    && s.view == before.view && s.announcing == before.announcing && |s.clients| == |before.clients| + 1
    && s.clients[..|before.clients|] == before.clients
    && Shown(RECORD, s.clients[|before.clients|].session.sent) == Some(IsRecording(before.view))
  }

  /** A client joins, up to the record state, while nothing else happens. */
  lemma JoinsRecord(actions: seq<Action>) returns (longer: seq<Action>, s: System)
    requires Run(actions).joining.None?
    ensures s == Run(longer) && s.joining == Some(ReadPower) && Welcomed(s, Run(actions))
  {
    var before := Run(actions);
    longer, s := OneMore(actions, Connect);
    longer, s := OneMore(longer, JoinStep);
    assert s.joining == Some(ReadRecord) && s.clients[..|before.clients|] == before.clients;
    longer, s := OneMore(longer, JoinStep);
    assert s.joining == Some(SendRecord(IsRecording(before.view)));
    ShownNext(RECORD, s.clients[|before.clients|].session.sent, InitialRecord(IsRecording(before.view)));
    longer, s := OneMore(longer, JoinStep);
  }

  lemma SettingsSent(s: System, before: System, power: bool, scan: bool)
    requires s.joining == Some(SendSettings(power, scan)) && Welcomed(s, before)
    ensures Apply(s, JoinStep).joining.None? && Welcomed(Apply(s, JoinStep), before)
  {
    ShownNext(RECORD, s.clients[|before.clients|].session.sent, InitialSettings(power, scan));
  }

  /** A client joins while nothing else happens. */
  lemma JoinsAlone(actions: seq<Action>) returns (longer: seq<Action>, s: System)
    requires Run(actions).joining.None?
    ensures s == Run(longer) && s.joining.None? && Welcomed(s, Run(actions))
  {
    longer, s := JoinsRecord(actions);
    var power := s.view.power == H.ON;
    longer, s := OneMore(longer, JoinStep);
    longer, s := OneMore(longer, JoinStep);
    SettingsSent(s, Run(actions), power, s.view.scan == H.ON);
    longer, s := OneMore(longer, JoinStep);
  }

  /** While a stop is being processed, a client that was there still shows "recording" and one that
      joins now does not: steadiness is needed. */
  lemma ProcessingIsShownDifferently()
    ensures exists actions: seq<Action> :: Disagree(Run(actions))
  {
    var actions, s := OneMore([], Handle(RecordAnswer(R.Noti(R.START_NOTI, true, 0))));
    actions, s := OneMore(actions, Announce);
    assert s.clients == [];
    actions, s := JoinsAlone(actions);
    actions, s := OneMore(actions, Handle(RecordCommand(R.STOP)));
    var first := s.clients[0];
    actions, s := JoinsAlone(actions);
    assert s.clients[0] == s.clients[..1][0] == first;
    assert Disagree(s);
  }

  ghost predicate Disagree(s: System)
  {
    && |s.clients| == 2 && s.joining.None? && s.announcing.None? && s.view.record == R.RecordState.PROCESSING
    && Shown(RECORD, s.clients[0].session.sent) == Some(true)
    && Shown(RECORD, s.clients[1].session.sent) == Some(false)
  }
}
