/** The write queue of one WebSocket connection (WebSocketSession in
 * coremgr/src/WS/WebSocketServer.cpp): at most one asynchronous write at a time, messages in order. */
module WebSocketSessions {

  datatype Written<M> = Written(message: M, ok: bool)

  datatype Session<M> = Session(
    queue: seq<M>,               // message_queue_
    writing: bool,               // writing_
    posted: nat,                 // doWrite handlers waiting in the executor
    running: seq<M>,             // messages whose async_write has begun and not completed
    sent: seq<M>,                // history: everything given to send
    completed: seq<Written<M>>,  // history
    sound: bool)                 // history: front() and pop() never met an empty queue

  datatype Action<M> = Send(m: M) | DoWrite | Complete(ok: bool)

  function Opened<M>(): Session<M> {
    Session([], false, 0, [], [], [], true)
  }

  function OnSend<M>(s: Session<M>, m: M): Session<M> {
    s.(queue := s.queue + [m], sent := s.sent + [m], writing := true,
       posted := if s.writing then s.posted else s.posted + 1)
  }

  function OnDoWrite<M>(s: Session<M>): Session<M>
  {
    if s.posted == 0 then s
    else if s.queue == [] then s.(posted := s.posted - 1, sound := false)
    else s.(posted := s.posted - 1, running := s.running + [s.queue[0]])
  }

  /** The completion handler of async_write. After an error the write loop stops. */
  function OnComplete<M>(s: Session<M>, ok: bool): Session<M>
  {
    if s.running == [] then s
    else if s.queue == [] then s.(running := s.running[1..], sound := false)
    else
      var t := s.(running := s.running[1..], queue := s.queue[1..],
                  completed := s.completed + [Written(s.running[0], ok)]);
      if ok && t.queue != [] then t.(posted := t.posted + 1) else t.(writing := false)
  }

  function Apply<M>(s: Session<M>, a: Action<M>): Session<M>
  {
    match a
    case Send(m) => OnSend(s, m)
    case DoWrite => OnDoWrite(s)
    case Complete(ok) => OnComplete(s, ok)
  }

  function Run<M>(actions: seq<Action<M>>): Session<M>
    decreases |actions|
  {
    if actions == [] then Opened() else Apply(Run(actions[..|actions| - 1]), actions[|actions| - 1])
  }

  function Gives<M>(a: Action<M>): seq<M> {
    if a.Send? then [a.m] else []
  }

  /** What a run gives to send, in order. */
  function Given<M>(actions: seq<Action<M>>): seq<M>
    decreases |actions|
  {
    if actions == [] then [] else Given(actions[..|actions| - 1]) + Gives(actions[|actions| - 1])
  }

  function Messages<M>(writes: seq<Written<M>>): seq<M> {
    seq(|writes|, i requires 0 <= i < |writes| => writes[i].message)
  }

  predicate AllOk<M>(writes: seq<Written<M>>) {
    forall i | 0 <= i < |writes| :: writes[i].ok
  }

  ghost predicate Inv<M>(s: Session<M>)
  {
    && s.sound
    && Messages(s.completed) + s.queue == s.sent
    && s.posted + |s.running| == (if s.writing then 1 else 0)
    && (s.writing ==> s.queue != [])
    && (s.running != [] ==> s.running[0] == s.queue[0])
    && (!s.writing && s.queue != [] ==> s.completed != [] && !s.completed[|s.completed| - 1].ok)
  }

  lemma CompleteKeepsInv<M>(s: Session<M>, ok: bool)
    requires Inv(s)
    ensures Inv(OnComplete(s, ok))
  {
    if s.running != [] {
      var t := OnComplete(s, ok);
      assert Messages(t.completed) == Messages(s.completed) + [s.queue[0]];
      assert s.queue == [s.queue[0]] + t.queue;
    }
  }

  lemma StepKeepsInv<M>(s: Session<M>, a: Action<M>)
    requires Inv(s)
    ensures Inv(Apply(s, a))
  {
    if a.Complete? {
      CompleteKeepsInv(s, a.ok);
    }
  }

  /** In every run, the completed writes followed by the queue are what was sent, in order; writing_ holds
      exactly when one posted or running write is outstanding; front() and pop() always have a message;
      and the loop rests with messages left only after an error. */
  lemma {:induction false} WritesInOrder<M>(actions: seq<Action<M>>)
    ensures var s := Run(actions);
            && s.sent == Given(actions) == Messages(s.completed) + s.queue
            && s.posted + |s.running| == (if s.writing then 1 else 0)
            && (s.writing ==> s.queue != []) && s.sound
            && (!s.writing && s.queue != [] ==> s.completed != [] && !s.completed[|s.completed| - 1].ok)
    ensures Inv(Run(actions))
    decreases |actions|
  {
    if actions == [] {
    } else {
      WritesInOrder(actions[..|actions| - 1]);
      StepKeepsInv(Run(actions[..|actions| - 1]), actions[|actions| - 1]);
    }
  }

  /** Unless a write failed, a session at rest has written everything it was given. */
  lemma RestIsDrained<M>(actions: seq<Action<M>>)
    requires !Run(actions).writing && AllOk(Run(actions).completed)
    ensures Messages(Run(actions).completed) == Given(actions)
  {
    WritesInOrder(actions);
    assert Run(actions).queue == [];
  }

  // ---------------------------------------------------------------- progress

  /** Steps of the write loop whose writes succeed. */
  predicate WriteStep<M>(a: Action<M>) {
    a == DoWrite || a == Complete(true)
  }

  predicate WriteLoop<M>(actions: seq<Action<M>>) {
    forall i | 0 <= i < |actions| :: WriteStep(actions[i])
  }

  function NextWrite<M>(s: Session<M>): Action<M> {
    if s.posted > 0 then DoWrite else Complete(true)
  }

  lemma NextWriteWorks<M>(s: Session<M>)
    requires Inv(s) && AllOk(s.completed) && s.queue != []
    ensures var t := Apply(s, NextWrite(s));
            && AllOk(t.completed) && t.sent == s.sent
            && 2 * |t.queue| + t.posted < 2 * |s.queue| + s.posted
  {
    assert s.writing;
  }

  /** From every run without a failed write, the write loop alone can write everything that was given to
      send, in its order, and come to rest. */
  lemma {:induction false} CanDrain<M>(actions: seq<Action<M>>) returns (more: seq<Action<M>>)
    requires AllOk(Run(actions).completed)
    ensures WriteLoop(more)
    ensures var t := Run(actions + more);
            Messages(t.completed) == Given(actions) && AllOk(t.completed) && t.queue == [] && !t.writing
    decreases 2 * |Run(actions).queue| + Run(actions).posted
  {
    var s := Run(actions);
    WritesInOrder(actions);
    if s.queue == [] {
      more := [];
      assert actions + more == actions;
    } else {
      var longer := actions + [NextWrite(s)];
      assert longer[..|longer| - 1] == actions;
      NextWriteWorks(s);
      more := CanDrain(longer);
      assert longer + more == actions + ([NextWrite(s)] + more);
      more := [NextWrite(s)] + more;
    }
  }

  class WebSocketSession<M> {
    var messageQueue: seq<M>
    var writing: bool
    var posted: nat
    var running: seq<M>
    ghost var sent: seq<M>
    ghost var completed: seq<Written<M>>

    ghost function View(): Session<M>
      reads this
    {
      Session(messageQueue, writing, posted, running, sent, completed, true)
    }

    ghost predicate Valid()
      reads this
    {
      Inv(View())
    }

    constructor ()
      ensures Valid() && View() == Opened<M>()
    {
      messageQueue, writing, posted, running, sent, completed := [], false, 0, [], [], [];
    }

    method Send(message: M)
      requires Valid()
      modifies this
      ensures Valid() && View() == OnSend(old(View()), message)
      ensures messageQueue == old(messageQueue) + [message] && writing && running == old(running)
      ensures posted == old(posted) + if old(writing) then 0 else 1
    {
      messageQueue := messageQueue + [message];
      sent := sent + [message];
      if !writing {
        writing := true;
        posted := posted + 1;
      }
      StepKeepsInv(old(View()), Action.Send(message));
    }

    /** The executor runs a posted doWrite: the queue cannot be empty here. */
    method DoWrite()
      requires Valid() && posted > 0
      modifies this
      ensures Valid() && View() == OnDoWrite(old(View()))
      ensures messageQueue == old(messageQueue) != [] && running == old(running) + [messageQueue[0]]
      ensures posted == old(posted) - 1 && writing
    {
      posted := posted - 1;
      running := running + [messageQueue[0]];
      StepKeepsInv(old(View()), Action.DoWrite);
    }

    /** The outstanding write completes. `leave` tells whether the session leaves the server. */
    method WriteCompleted(ok: bool) returns (leave: bool)
      requires Valid() && running != []
      modifies this
      ensures Valid() && View() == OnComplete(old(View()), ok)
      ensures leave <==> !ok
      ensures old(messageQueue) == [old(running[0])] + messageQueue && running == old(running[1..])
      ensures completed == old(completed) + [Written(old(running[0]), ok)]
      ensures writing <==> ok && messageQueue != []
      ensures posted == old(posted) + if writing then 1 else 0
    {
      StepKeepsInv(View(), Action.Complete(ok));
      completed := completed + [Written(running[0], ok)];
      running := running[1..];
      messageQueue := messageQueue[1..];
      leave := !ok;
      if !ok {
        writing := false;
        return;
      }
      if messageQueue != [] {
        posted := posted + 1;
      } else {
        writing := false;
      }
    }
  }
}
