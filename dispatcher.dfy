/**
  EventDispatcher: the listener registry, the FIFO queue of owned events,
  and the five operations on them.

  The process-wide `nextListenerID` of the C++ program is a field here. A
  listener call is recorded by appending an Invocation to `trace`; the
  listeners are taken to leave the dispatcher alone while they run (they
  neither register, unregister nor queue events).
*/
module Dispatcher {
  import opened Events
  import opened Listeners
  import opened EventQueue

  class EventDispatcher {
    /** For each tag, its (handle, callback) pairs in registration order */
    var listeners: Registry
    /** The queued event copies, oldest first */
    var eventQueue: seq<Event>
    /** The handle the next registration receives */
    var nextListenerID: ListenerID
    /** Every listener call made so far, in the order made */
    var trace: seq<Invocation>

    ghost predicate Valid()
      reads this
    {
      RegistryValid(listeners, nextListenerID)
    }

    constructor ()
      ensures Valid()
      ensures listeners == map[] && eventQueue == [] && nextListenerID == 0 && trace == []
    {
      listeners := map[];
      eventQueue := [];
      nextListenerID := 0;
      trace := [];
    }

    /**
      `addListener`: appends (nextListenerID, listener) to the vector for
      `eventType` and returns nextListenerID, which then moves on by one.
      The handle is larger than every handle already registered, under any tag.
    */
    method AddListener(eventType: int, listener: Callback) returns (id: ListenerID)
      requires Valid()
      modifies this
      ensures Valid()
      ensures id == old(nextListenerID) && nextListenerID == id + 1
      ensures forall k, r :: k in old(listeners) && r in old(listeners)[k] ==> r.id < id
      ensures listeners == Register(old(listeners), eventType, Registration(id, listener))
      ensures eventQueue == old(eventQueue) && trace == old(trace)
    {
      AddKeepsValid(listeners, nextListenerID, eventType, listener);
      var regs := Lookup(listeners, eventType);
      listeners := listeners[eventType := regs + [Registration(nextListenerID, listener)]];
      id := nextListenerID;
      nextListenerID := nextListenerID + 1;
    }

    /**
      `removeListener`: the vector for `eventType` loses every pair with
      handle `id` and keeps the others in order; the other tags are untouched.
      An unknown handle, or one already removed, leaves the vector as it was.
    */
    method RemoveListener(eventType: int, id: ListenerID)
      requires Valid()
      modifies this
      ensures Valid()
      ensures listeners == Unregister(old(listeners), eventType, id)
      ensures (forall r :: r in Lookup(old(listeners), eventType) ==> r.id != id) ==>
                listeners[eventType] == Lookup(old(listeners), eventType)
      ensures eventQueue == old(eventQueue) && trace == old(trace) && nextListenerID == old(nextListenerID)
    {
      RemoveKeepsValid(listeners, nextListenerID, eventType, id);
      var regs := Lookup(listeners, eventType);
      var kept := RemoveIf(regs, id);
      listeners := listeners[eventType := kept];
      if forall r :: r in regs ==> r.id != id {
        assert forall i :: 0 <= i < |regs| ==> regs[i] in regs;
        WithoutAbsent(regs, id);
      }
    }

    /** `queueEvent`: a copy of `e` goes to the back of the queue; no listener is called. */
    method QueueEvent(e: Event)
      modifies this
      ensures eventQueue == old(eventQueue) + [e]
      ensures listeners == old(listeners) && trace == old(trace) && nextListenerID == old(nextListenerID)
    {
      eventQueue := eventQueue + [Clone(e)];
    }

    /** Passes `e` to each listener of `regs` once, in order. */
    method CallAll(regs: seq<Registration>, e: Event)
      modifies this`trace
      ensures trace == old(trace) + Notify(regs, e)
    {
      for i := 0 to |regs|
        invariant trace == old(trace) + Notify(regs, e)[..i]
      {
        trace := trace + [Invocation(regs[i], e)];
      }
    }

    /**
      The body shared by both drains: look up `listeners[e->getType()]` and
      call everything in it. Reading `listeners[tag]` inserts an empty vector
      for a tag never seen before.
    */
    method Deliver(e: Event)
      modifies this`listeners, this`trace
      ensures trace == old(trace) + Notify(Lookup(old(listeners), e.tag), e)
      ensures listeners.Keys == old(listeners).Keys + {e.tag}
      ensures forall k :: Lookup(listeners, k) == Lookup(old(listeners), k)
    {
      var regs := Lookup(listeners, e.tag);
      listeners := listeners[e.tag := regs];
      CallAll(regs, e);
    }

    /**
      `processEvents`: pops the queue front to back until it is empty and
      calls, for each event, every listener registered for its tag, in
      registration order. The registry gains empty vectors for the tags it
      reads and is otherwise unchanged.
    */
    method ProcessEvents()
      requires Valid()
      modifies this
      ensures Valid()
      ensures eventQueue == []
      ensures trace == old(trace) + Deliveries(old(listeners), old(eventQueue))
      ensures listeners.Keys == old(listeners).Keys + Tags(old(eventQueue))
      ensures forall k :: Lookup(listeners, k) == Lookup(old(listeners), k)
      ensures nextListenerID == old(nextListenerID)
    {
      ghost var m := listeners;
      while eventQueue != []
        invariant trace + Deliveries(m, eventQueue) == old(trace) + Deliveries(m, old(eventQueue))
        invariant listeners.Keys + Tags(eventQueue) == m.Keys + Tags(old(eventQueue))
        invariant forall k :: Lookup(listeners, k) == Lookup(m, k)
        modifies this`eventQueue, this`listeners, this`trace
        decreases |eventQueue|
      {
        var e := eventQueue[0];
        DrainStep(m, trace, eventQueue);
        TagsStep(eventQueue);
        eventQueue := eventQueue[1..];
        Deliver(e);
      }
      SameLookupsKeepValid(old(listeners), listeners, nextListenerID);
    }

    /**
      `processEventsOfType`: one pass over the queue. Events with tag
      `eventType` are dispatched in queue order; the others are moved to a
      side queue, which then replaces the queue, so they stay in their order.
    */
    method ProcessEventsOfType(eventType: int)
      requires Valid()
      modifies this
      ensures Valid()
      ensures eventQueue == NotOfKind(old(eventQueue), eventType)
      ensures trace == old(trace) + Deliveries(old(listeners), OfKind(old(eventQueue), eventType))
      ensures listeners.Keys ==
                old(listeners).Keys + (if OfKind(old(eventQueue), eventType) == [] then {} else {eventType})
      ensures forall k :: Lookup(listeners, k) == Lookup(old(listeners), k)
      ensures nextListenerID == old(nextListenerID)
    {
      var remainingEvents: seq<Event> := [];
      ghost var m := listeners;
      ghost var k := eventType;
      while eventQueue != []
        invariant trace + Deliveries(m, OfKind(eventQueue, k)) == old(trace) + Deliveries(m, OfKind(old(eventQueue), k))
        invariant remainingEvents + NotOfKind(eventQueue, k) == NotOfKind(old(eventQueue), k)
        invariant listeners.Keys + (if OfKind(eventQueue, k) == [] then {} else {k}) ==
                    m.Keys + (if OfKind(old(eventQueue), k) == [] then {} else {k})
        invariant forall k' :: Lookup(listeners, k') == Lookup(m, k')
        modifies this`eventQueue, this`listeners, this`trace
        decreases |eventQueue|
      {
        var e := eventQueue[0];
        var rest := eventQueue[1..];
        if e.tag == eventType {
          TakeStep(m, trace, eventQueue, k);
          eventQueue := rest;
          Deliver(e);
        } else {
          KeepStep(remainingEvents, eventQueue, k);
          eventQueue := rest;
          remainingEvents := remainingEvents + [e];
        }
      }
      eventQueue := remainingEvents;
      SameLookupsKeepValid(old(listeners), listeners, nextListenerID);
    }
  }
}
