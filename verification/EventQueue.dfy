/** The event queue every manager uses (common/src/Event/EventQueue.cpp), and the drain loop of the
 * MainWorker threads (coremgr/src/Thread/MainWorker.cpp, hardwaremgr/src/Thread/MainWorker.cpp,
 * recordmgr/src/Thread/MainWorker.cpp). */
module EventQueues {
  import opened Wrappers

  class EventQueue<E> {
    var eventList: seq<E>
    ghost var pushed: seq<E>
    ghost var popped: seq<E>

    /** First in, first out: what was popped followed by what is queued is what was pushed. */
    ghost predicate Valid()
      reads this
    {
      popped + eventList == pushed
    }

    constructor ()
      ensures Valid() && eventList == [] && pushed == [] && popped == []
    {
      eventList, pushed, popped := [], [], [];
    }

    /** A null event is refused. */
    method PushEvent(event: Option<E>) returns (ret: bool)
      requires Valid()
      modifies this
      ensures Valid()
      ensures ret <==> event.Some?
      ensures pushed == old(pushed) + (if event.Some? then [event.value] else []) && popped == old(popped)
    {
      ret := false;
      if event.Some? {
        eventList := eventList + [event.value];
        pushed := pushed + [event.value];
        ret := true;
      }
    }

    method PopEvent() returns (event: Option<E>)
      requires Valid()
      modifies this
      ensures Valid() && pushed == old(pushed)
      ensures event.None? <==> old(popped) == old(pushed)
      ensures popped == old(popped) + if event.Some? then [event.value] else []
    {
      event := None;
      if eventList != [] {
        event := Some(eventList[0]);
        popped := popped + [eventList[0]];
        eventList := eventList[1..];
      }
    }

    method HasEvent() returns (has: bool)
      requires Valid()
      ensures has <==> popped != pushed
    {
      has := eventList != [];
    }

    method Size() returns (size: nat)
      requires Valid()
      ensures size == |pushed| - |popped|
    {
      size := |eventList|;
    }
  }

  /** Everything in `batches`, in order. */
  function Flatten<E>(batches: seq<seq<E>>): seq<E>
    decreases |batches|
  {
    if batches == [] then [] else Flatten(batches[..|batches| - 1]) + batches[|batches| - 1]
  }

  /** Other threads push a batch of events. */
  method PushAll<E>(queue: EventQueue<E>, batch: seq<E>)
    requires queue.Valid()
    modifies queue
    ensures queue.Valid() && queue.pushed == old(queue.pushed) + batch && queue.popped == old(queue.popped)
  {
    var i := 0;
    while i < |batch|
      invariant 0 <= i <= |batch| && queue.Valid()
      invariant queue.pushed == old(queue.pushed) + batch[..i] && queue.popped == old(queue.popped)
    {
      var ret := queue.PushEvent(Some(batch[i]));
      assert batch[..i + 1] == batch[..i] + [batch[i]];
      i := i + 1;
    }
    assert batch[..i] == batch;
  }

  /** The loop of a MainWorker, while other threads push `arrivals[i]` before its turn i, until it waits
      after the last of them: it processes everything that is pushed, in the order of the pushes. */
  method Drain<E>(queue: EventQueue<E>, arrivals: seq<seq<E>>) returns (processed: seq<E>)
    requires queue.Valid()
    modifies queue
    ensures queue.Valid() && queue.pushed == old(queue.pushed) + Flatten(arrivals)
    ensures old(queue.popped) + processed == queue.popped == queue.pushed
  {
    processed := [];
    var i := 0;
    var waits := false;
    while i < |arrivals| || !waits
      invariant 0 <= i <= |arrivals| && queue.Valid()
      invariant queue.pushed == old(queue.pushed) + Flatten(arrivals[..i])
      invariant old(queue.popped) + processed == queue.popped
      invariant waits ==> queue.popped == queue.pushed
      decreases |arrivals| - i, |queue.pushed| - |queue.popped|, !waits
    {
      if i < |arrivals| {
        PushAll(queue, arrivals[i]);
        assert arrivals[..i + 1][..i] == arrivals[..i];
        i := i + 1;
      }
      var has := queue.HasEvent();
      if has {
        var event := queue.PopEvent();
        if event.Some? {
          processed := processed + [event.value];
        }
      }
      waits := !has;
    }
    assert arrivals[..i] == arrivals;
  }
}
