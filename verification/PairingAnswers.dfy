/** Which timer a client's answer stops. */
module PairingAnswers {
  import opened Wrappers
  import opened BluezPath
  import opened HardwareHandlers
  import opened CommandPipeline
  import opened Pairing
  import opened PairingTimeouts
  import T = TimerProtocol
  import Timers

  ghost predicate Sized(s: Pairing.System) {
    |s.ids| == s.timer.started <= |s.starts|
  }

  /** `last` names the newest inserted timer of each address. */
  ghost predicate LastInv(s: Pairing.System)
  {
    && Sized(s)
    && (forall a | a in s.last :: s.last[a] < s.timer.started && s.starts[s.last[a]].address == a)
    && (forall j | 0 <= j < s.timer.started :: s.starts[j].address in s.last && j <= s.last[s.starts[j].address])
  }

  /** timerIdMap holds its id; whoever holds that id now was inserted with it or after it. */
  ghost predicate MapInv(s: Pairing.System)
  {
    Sized(s) &&
    forall a | a in s.timerIdMap ::
      && a in s.last && s.last[a] < s.timer.started && s.timerIdMap[a] == s.ids[s.last[a]]
      && (s.timerIdMap[a] in s.timer.table ==> s.last[a] <= s.timer.table[s.timerIdMap[a]].instance)
  }

  lemma StartKeepsLast(s: Pairing.System)
    requires TagInv(s) && LastInv(s)
    ensures LastInv(Pairing.Apply(s, StartStep))
  {
    var t := Pairing.Apply(s, StartStep);
    assert t.starts == s.starts;
    if s.timer.starter.Made? {
      assert t.last == s.last[s.timer.starter.event := s.timer.started];
    }
  }

  lemma StartKeepsMap(s: Pairing.System)
    requires TagInv(s) && LastInv(s) && MapInv(s) && T.TableInv(s.timer)
    ensures MapInv(Pairing.Apply(s, StartStep))
  {
    var t := Pairing.Apply(s, StartStep);
    if s.timer.starter.Made? {
      var id := s.timer.starter.id;
      assert t.timerIdMap == s.timerIdMap[s.timer.starter.event := id];
      assert t.ids == s.ids + [id] && |s.ids| == s.timer.started;
      assert t.timer.table.Keys == s.timer.table.Keys + {id} && t.timer.table[id].instance == s.timer.started;
      assert forall k | k in s.timer.table :: t.timer.table[k] == s.timer.table[k];
    }
  }

  lemma ThreadFrame(s: Pairing.System, b: T.Action)
    ensures var t := Pairing.Apply(s, TimerStep(b));
            && t.timer.started == s.timer.started && t.starts == s.starts && t.ids == s.ids
            && t.last == s.last && t.timerIdMap == s.timerIdMap
            && (forall k | k in t.timer.table :: k in s.timer.table && t.timer.table[k] == s.timer.table[k])
  {
  }

  /** Nothing is inserted: the table and the map may only shrink. */
  lemma ShrinkKeeps(s: Pairing.System, t: Pairing.System)
    requires LastInv(s) && MapInv(s)
    requires t.timer.started == s.timer.started && s.starts <= t.starts && t.ids == s.ids && t.last == s.last
    requires forall a | a in t.timerIdMap :: a in s.timerIdMap && t.timerIdMap[a] == s.timerIdMap[a]
    requires forall k | k in t.timer.table :: k in s.timer.table && t.timer.table[k] == s.timer.table[k]
    ensures LastInv(t) && MapInv(t)
  {
  }

  lemma CoreShrinks(s: Pairing.System)
    ensures var t := Pairing.Apply(s, Pairing.Action.CoreStep);
            && t.last == s.last
            && forall a | a in t.timerIdMap :: a in s.timerIdMap && t.timerIdMap[a] == s.timerIdMap[a]
  {
  }

  lemma AnswersKept(s: Pairing.System, a: Pairing.Action)
    requires TagInv(s) && T.TableInv(s.timer) && LastInv(s) && MapInv(s)
    ensures LastInv(Pairing.Apply(s, a)) && MapInv(Pairing.Apply(s, a))
  {
    if a == Pairing.Action.CoreStep {
      CoreFrame(s);
      CoreShrinks(s);
      ShrinkKeeps(s, Pairing.Apply(s, a));
    } else if a == StartStep {
      StartKeepsLast(s);
      StartKeepsMap(s);
    } else if a.TimerStep? {
      ThreadFrame(s, a.a);
      ShrinkKeeps(s, Pairing.Apply(s, a));
    } else {
      ShrinkKeeps(s, Pairing.Apply(s, a));
    }
  }

  lemma {:induction false} RunKeepsAnswers(actions: seq<Pairing.Action>)
    ensures var s := Pairing.Run(actions);
            TagInv(s) && T.Inv(s.timer) && LastInv(s) && MapInv(s)
    decreases |actions|
  {
    if actions == [] {
    } else {
      RunKeepsAnswers(actions[..|actions| - 1]);
      AnswersKept(Pairing.Run(actions[..|actions| - 1]), actions[|actions| - 1]);
    }
    RunKeeps(actions, "");
  }

  /** timerIdMap[address] is always the id of the most recently started timer of that address. */
  lemma MapHoldsNewest(actions: seq<Pairing.Action>, address: string)
    requires address in Pairing.Run(actions).timerIdMap
    ensures var s := Pairing.Run(actions);
            exists i ::
              && 0 <= i < s.timer.started <= |s.starts| && s.timer.started == |s.ids|
              && s.starts[i].address == address && s.timerIdMap[address] == s.ids[i]
              && forall j | i < j < s.timer.started :: s.starts[j].address != address
  {
    RunKeepsAnswers(actions);
    var s := Pairing.Run(actions);
    var i := s.last[address];
    assert 0 <= i < s.timer.started <= |s.starts|;
  }

  /** A client's accept or reject for `address` is the next event of core's queue. */
  ghost predicate AnswerIsNext(s: Pairing.System, address: string)
  {
    && !CoreBusy(s) && s.pipe.coreQueue[0].FromClient?
    && (s.pipe.coreQueue[0].what.op == ACCEPT || s.pipe.coreQueue[0].what.op == REJECT)
    && s.pipe.coreQueue[0].what.address == address && address in s.timerIdMap
  }

  lemma AnswerFrame(s: Pairing.System, address: string)
    requires AnswerIsNext(s, address)
    ensures var t := Pairing.Apply(s, Pairing.Action.CoreStep);
            t.timer.table == s.timer.table - {s.timerIdMap[address]} && t.timerIdMap == s.timerIdMap - {address}
  {
    var id := s.timerIdMap[address];
    if id !in s.timer.table {
      assert s.timer.table - {id} == s.timer.table;
    }
  }

  lemma StoredIdOwner(s: Pairing.System, address: string)
    requires TagInv(s) && Timers.IsTable(s.timer.table) && LastInv(s) && MapInv(s) && address in s.timerIdMap
    ensures var id := s.timerIdMap[address];
            && (T.Live(s.timer, s.last[address]) ==>
                  id in s.timer.table && s.timer.table[id].instance == s.last[address])
            && (id in s.timer.table ==>
                  (s.timer.table[id].event == address <==> T.Live(s.timer, s.last[address])))
  {
    var id := s.timerIdMap[address];
    var i := s.last[address];
    if T.Live(s.timer, i) {
      var k :| k in s.timer.table && s.timer.table[k].instance == i;
      assert Tagged(s, s.timer.table[k]);
      assert s.timer.table[k].timerId == id;
    }
    if id in s.timer.table {
      assert Tagged(s, s.timer.table[id]);
    }
  }

  /** Answering stops at most the timer that holds the stored id. If the newest timer of the device is
      live, that is the one; if not, any timer it stops belongs to another device. */
  lemma AnswerStops(actions: seq<Pairing.Action>, address: string)
    requires AnswerIsNext(Pairing.Run(actions), address)
    ensures var s := Pairing.Run(actions);
            var t := Pairing.Apply(s, Pairing.Action.CoreStep);
            var id := s.timerIdMap[address];
            && address in s.last
            && t.timer.table == s.timer.table - {id} && t.timerIdMap == s.timerIdMap - {address}
            && (T.Live(s.timer, s.last[address]) ==>
                  id in s.timer.table && s.timer.table[id].instance == s.last[address])
            && (id in s.timer.table ==>
                  (s.timer.table[id].event == address <==> T.Live(s.timer, s.last[address])))
  {
    RunKeepsAnswers(actions);
    AnswerFrame(Pairing.Run(actions), address);
    StoredIdOwner(Pairing.Run(actions), address);
  }

  // ---------------------------------------------------------------- an answer that stops another device's timer

  lemma OneMore(actions: seq<Pairing.Action>, a: Pairing.Action)
    returns (longer: seq<Pairing.Action>, s: Pairing.System)
    ensures longer == actions + [a]
    ensures s == Pairing.Run(longer) == Pairing.Apply(Pairing.Run(actions), a)
  {
    longer := actions + [a];
    s := Pairing.Run(longer);
    assert longer[..|longer| - 1] == actions;
  }

  /** Nothing on its way into core's queue, nobody inside startTimer, and ids start at 1. */
  ghost predicate Ready(s: Pairing.System) {
    && s.pipe.coreQueue == [] && s.toCore == []
    && s.timer.starter == T.Idle && s.timer.next == 1 && s.timer.table == map[]
  }

  /** The agent and what is on its way to it have not moved. */
  predicate AgentSide(s: Pairing.System, t: Pairing.System) {
    t.agent == s.agent && t.pipe.channel == s.pipe.channel && t.pipe.hwQueue == s.pipe.hwQueue
  }

  /** The device has asked, and nothing has been sent to the agent since. */
  predicate Asking(s: Pairing.System, t: Pairing.System, address: string)
  {
    && t.agent == A.OnRequest(s.agent, Some(ObjectPath("", address)))
    && t.pipe.channel == s.pipe.channel && t.pipe.hwQueue == s.pipe.hwQueue
  }

  lemma Notified(actions: seq<Pairing.Action>, address: string) returns (longer: seq<Pairing.Action>, s: Pairing.System)
    requires Ready(Pairing.Run(actions)) && IsAddress(address) && address != ""
    ensures var before := Pairing.Run(actions);
            && s == Pairing.Run(longer) && s.pipe.coreQueue == [Confirm(address)] && s.toCore == []
            && s.timer == before.timer && s.timerIdMap == before.timerIdMap && Asking(before, s, address)
  {
    LastMatchRoundTrip("", address);
    longer, s := OneMore(actions, BluezCalls(Some(ObjectPath("", address))));
    longer, s := OneMore(longer, NotiArrives);
  }

  lemma Choosing(timer: T.System, address: string)
    requires timer.starter == T.Idle && timer.next == 1 && timer.table == map[]
    ensures T.Apply(timer, T.Choose(TIMEOUT_REQUEST_CONFIRMATION_MS, address)) ==
      timer.(starter := T.Chosen(1, TIMEOUT_REQUEST_CONFIRMATION_MS, address))
  {
    Timers.FreeStartIsChosen(1, timer.table.Keys);
    assert timer.table.Keys == {};
  }

  lemma ConfirmationHandled(s: Pairing.System, address: string)
    requires s.pipe.coreQueue == [Confirm(address)]
    requires s.timer.starter == T.Idle && s.timer.next == 1 && s.timer.table == map[]
    ensures var t := Pairing.Apply(s, Pairing.Action.CoreStep);
            && t.pipe.coreQueue == [] && t.toCore == s.toCore && t.timerIdMap == s.timerIdMap && AgentSide(s, t)
            && t.timer == s.timer.(starter := T.Chosen(1, TIMEOUT_REQUEST_CONFIRMATION_MS, address))
  {
    Choosing(s.timer, address);
    assert s.pipe.channel + [] == s.pipe.channel;
  }

  lemma Chosen(actions: seq<Pairing.Action>, address: string) returns (longer: seq<Pairing.Action>, s: Pairing.System)
    requires Ready(Pairing.Run(actions)) && IsAddress(address) && address != ""
    ensures var before := Pairing.Run(actions);
            && s == Pairing.Run(longer) && s.pipe.coreQueue == [] && s.toCore == [] && s.timerIdMap == before.timerIdMap
            && Asking(before, s, address)
            && s.timer == before.timer.(starter := T.Chosen(1, TIMEOUT_REQUEST_CONFIRMATION_MS, address))
  {
    longer, s := Notified(actions, address);
    ConfirmationHandled(s, address);
    longer, s := OneMore(longer, Pairing.Action.CoreStep);
  }

  /** Timer `id` of an empty table, as it stands after its insertion. */
  function WithTimerOne(t: T.System, address: string): T.System {
    t.(starter := T.Idle, started := t.started + 1, fate := t.fate[t.started := T.LIVE(1)],
       table := map[1 := Timers.Element(1, t.now + TIMEOUT_REQUEST_CONFIRMATION_MS, address, t.started, t.now)])
  }

  lemma Inserting(t: T.System, address: string)
    requires t.starter == T.Chosen(1, TIMEOUT_REQUEST_CONFIRMATION_MS, address) && t.table == map[]
    ensures T.Apply(T.Apply(t, T.Stamp), T.Put) == WithTimerOne(t, address)
  {
  }

  lemma StartSteps(s: Pairing.System, address: string)
    requires s.timer.starter == T.Chosen(1, TIMEOUT_REQUEST_CONFIRMATION_MS, address) && s.timer.table == map[]
    ensures var u := Pairing.Apply(Pairing.Apply(s, StartStep), StartStep);
            && u.timer == WithTimerOne(s.timer, address) && u.timerIdMap == s.timerIdMap[address := 1]
            && u.pipe == s.pipe && u.toCore == s.toCore && u.agent == s.agent
  {
    Inserting(s.timer, address);
    var t := Pairing.Apply(s, StartStep);
    assert t == s.(timer := T.Apply(s.timer, T.Stamp));
    assert Pairing.Apply(t, StartStep) == Starts(t);
  }

  lemma SameTimerOne(t: T.System, starter: T.Starter, address: string)
    ensures WithTimerOne(t.(starter := starter), address) == WithTimerOne(t, address)
  {
  }

  lemma TwoMore(actions: seq<Pairing.Action>) returns (longer: seq<Pairing.Action>, s: Pairing.System)
    ensures s == Pairing.Run(longer) == Pairing.Apply(Pairing.Apply(Pairing.Run(actions), StartStep), StartStep)
  {
    longer, s := OneMore(actions, StartStep);
    longer, s := OneMore(longer, StartStep);
  }

  /** A confirmation notification for `address` reaches core and starts timer 1. */
  lemma TimerOneStarts(actions: seq<Pairing.Action>, address: string)
    returns (longer: seq<Pairing.Action>, s: Pairing.System)
    requires Ready(Pairing.Run(actions)) && IsAddress(address) && address != ""
    ensures var before := Pairing.Run(actions);
            && s == Pairing.Run(longer) && s.pipe.coreQueue == [] && s.toCore == [] && Asking(before, s, address)
            && s.timerIdMap == before.timerIdMap[address := 1] && s.timer == WithTimerOne(before.timer, address)
  {
    var chosen, t := Chosen(actions, address);
    StartSteps(t, address);
    SameTimerOne(Pairing.Run(actions).timer, t.timer.starter, address);
    longer, s := TwoMore(chosen);
    assert s.pipe == t.pipe && s.agent == t.agent;
  }

  lemma Firing(t: T.System)
    requires t.phase == T.Awake && t.expired == [] && t.table.Keys == {1} && t.table[1].timerId == 1
    requires t.table[1].expireTime <= t.now + TIMEOUT_REQUEST_CONFIRMATION_MS
    ensures var x := t.table[1];
            var u := T.Apply(T.Apply(T.Apply(t, T.Tick(TIMEOUT_REQUEST_CONFIRMATION_MS)), T.ReadClock), T.Extract([x]));
            u.phase.Pushing? && u.expired == [x] && u.table == map[] && u.starter == t.starter && u.next == t.next
  {
    var x := t.table[1];
    var v := T.Apply(T.Apply(t, T.Tick(TIMEOUT_REQUEST_CONFIRMATION_MS)), T.ReadClock);
    assert v.phase == T.Sweeping(t.now + TIMEOUT_REQUEST_CONFIRMATION_MS) && v.table == t.table;
    assert Timers.Enumerates([x], v.table, v.phase.time);
    assert Timers.Unexpired(v.table, v.phase.time).Keys == {};
  }

  lemma ThreadStepIs(s: Pairing.System, b: T.Action)
    requires OfTimerThread(b) && b != T.Push
    ensures Pairing.Apply(s, TimerStep(b)) == s.(timer := T.Apply(s.timer, b))
  {
  }

  lemma PushStepIs(s: Pairing.System)
    requires s.timer.phase.Pushing? && s.timer.expired != []
    ensures var t := Pairing.Apply(s, TimerStep(T.Push));
            && t.timer == T.Apply(s.timer, T.Push) && t.timerIdMap == s.timerIdMap && t.toCore == s.toCore
            && AgentSide(s, t)
            && t.pipe.coreQueue == s.pipe.coreQueue + [Timeout(s.timer.expired[0].event)]
  {
  }

  /** Time passes, and the timer thread takes the one timer out and pushes it. */
  lemma TimerOneFires(actions: seq<Pairing.Action>) returns (longer: seq<Pairing.Action>, s: Pairing.System)
    requires var t := Pairing.Run(actions).timer;
             && t.phase == T.Awake && t.expired == [] && t.table.Keys == {1} && t.table[1].timerId == 1
             && t.table[1].expireTime <= t.now + TIMEOUT_REQUEST_CONFIRMATION_MS
    ensures var before := Pairing.Run(actions);
            && s == Pairing.Run(longer) && s.timerIdMap == before.timerIdMap && s.toCore == before.toCore
            && AgentSide(before, s) && s.timer.expired == []
            && s.timer.table == map[] && s.timer.starter == before.timer.starter && s.timer.next == before.timer.next
            && s.pipe.coreQueue == before.pipe.coreQueue + [Timeout(before.timer.table[1].event)]
  {
    s := Pairing.Run(actions);
    var x := s.timer.table[1];
    Firing(s.timer);
    ThreadStepIs(s, T.Tick(TIMEOUT_REQUEST_CONFIRMATION_MS));
    longer, s := OneMore(actions, TimerStep(T.Tick(TIMEOUT_REQUEST_CONFIRMATION_MS)));
    ThreadStepIs(s, T.ReadClock);
    longer, s := OneMore(longer, TimerStep(T.ReadClock));
    ThreadStepIs(s, T.Extract([x]));
    longer, s := OneMore(longer, TimerStep(T.Extract([x])));
    PushStepIs(s);
    longer, s := OneMore(longer, TimerStep(T.Push));
  }

  /** Handling the next event of core's queue, an answer for `a`, stops a timer started for `b`. */
  ghost predicate AnswerHits(s: Pairing.System, a: string, b: string)
  {
    && AnswerIsNext(s, a)
    && var id := s.timerIdMap[a];
       && id in s.timer.table && s.timer.table[id].event == b
       && id !in Pairing.Apply(s, Pairing.Action.CoreStep).timer.table
  }

  lemma TimeoutHandled(s: Pairing.System, address: string)
    requires s.timer.starter == T.Idle && s.pipe.coreQueue == [Timeout(address)]
    ensures var t := Pairing.Apply(s, Pairing.Action.CoreStep);
            && t.pipe.coreQueue == [] && t.timer == s.timer && t.timerIdMap == s.timerIdMap && t.toCore == s.toCore
            && t.agent == s.agent && t.pipe.hwQueue == s.pipe.hwQueue
            && t.pipe.channel == s.pipe.channel + Frames([DeviceOp(REJECT, address)])
  {
  }

  lemma ClientSteps(s: Pairing.System, m: ClientMessage)
    ensures var t := Pairing.Apply(s, Pairing.Action.ClientSays(m));
            && t.pipe.coreQueue == s.pipe.coreQueue + EventOf(m)
            && t.timer == s.timer && t.timerIdMap == s.timerIdMap && t.toCore == s.toCore && AgentSide(s, t)
  {
  }

  /** Device A asks and is rejected by the timeout; its id 1 is free again, but still in the map. */
  lemma FirstDeviceTimesOut() returns (actions: seq<Pairing.Action>, s: Pairing.System)
    ensures s == Pairing.Run(actions) && Ready(s) && s.timerIdMap == map["A" := 1]
    ensures s.timer.expired == [] && s.pipe.hwQueue == [] && s.pipe.channel == Frames([DeviceOp(REJECT, "A")])
  {
    actions, s := TimerOneStarts([], "A");
    actions, s := TimerOneFires(actions);
    TimeoutHandled(s, "A");
    actions, s := OneMore(actions, Pairing.Action.CoreStep);
  }

  lemma Hits(s: Pairing.System, a: string, b: string)
    requires AnswerIsNext(s, a) && s.timerIdMap[a] == 1 && 1 in s.timer.table && s.timer.table[1].event == b
    ensures AnswerHits(s, a, b)
  {
    AnswerFrame(s, a);
  }

  function AcceptFor(address: string): ClientMessage {
    Asks("accept_request_confirmation", map["device_address" := JString(address)])
  }

  lemma AcceptBecomes(address: string)
    ensures EventOf(AcceptFor(address)) == [FromClient(DeviceOp(ACCEPT, address))]
  {
  }

  lemma AskingIsPending(agent: A.Agent, address: string)
    requires IsAddress(address) && address != ""
    ensures address in A.OnRequest(agent, Some(ObjectPath("", address))).pending
  {
    LastMatchRoundTrip("", address);
  }

  /** Device B waits with id 1, and the rejection of device A is on its way. */
  ghost predicate SecondWaits(s: Pairing.System)
  {
    && s.timerIdMap == map["A" := 1]["B" := 1] && s.timer.starter == T.Idle && s.toCore == []
    && s.timer.table.Keys == {1} && s.timer.table[1].event == "B" && s.timer.expired == []
    && "B" in s.agent.pending && s.pipe.hwQueue == [] && s.pipe.channel == Frames([DeviceOp(REJECT, "A")])
  }

  lemma SecondDeviceAsks() returns (actions: seq<Pairing.Action>, s: Pairing.System)
    ensures s == Pairing.Run(actions) && s.pipe.coreQueue == [] && SecondWaits(s)
  {
    actions, s := FirstDeviceTimesOut();
    AskingIsPending(s.agent, "B");
    actions, s := TimerOneStarts(actions, "B");
  }

  /** And a client accepts device A. */
  lemma SecondDeviceWaits() returns (actions: seq<Pairing.Action>, s: Pairing.System)
    ensures s == Pairing.Run(actions) && s.pipe.coreQueue == [FromClient(DeviceOp(ACCEPT, "A"))] && SecondWaits(s)
  {
    actions, s := SecondDeviceAsks();
    AcceptBecomes("A");
    ClientSteps(s, AcceptFor("A"));
    actions, s := OneMore(actions, Pairing.Action.ClientSays(AcceptFor("A")));
  }

  /** Answering device A can stop the timer of device B: A's timer has fired, its id is still in the
      map, and the id was given to B. */
  lemma AnswerCanStopAnotherDevice()
    ensures exists actions: seq<Pairing.Action> :: AnswerHits(Pairing.Run(actions), "A", "B")
  {
    var actions, s := SecondDeviceWaits();
    assert s.timerIdMap["A"] == 1;
    Hits(s, "A", "B");
  }
}
