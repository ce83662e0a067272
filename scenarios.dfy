/**
  Clients of the dispatcher: the situations the repository's test cases and
  its example consumer put it in, with the listener calls each one makes.
  Each callback is a distinct token; the test cases' call counters are the
  number of entries of the trace that carry the listener's handle.
*/
module Scenarios {
  import opened EventIdentity
  import opened Events
  import opened Listeners
  import opened EventQueue
  import opened Dispatcher

  /** The three event structs are given three different tags. */
  method DistinctKinds() returns (input: int, state: int, interaction: int)
    ensures input != state && state != interaction && input != interaction
    ensures {input, state, interaction} == {0, 1, 2}
  {
    var types := new TypeIds<Variant>();
    input := types.GetId(PlayerInputKind);
    state := types.GetId(GameStateChangeKind);
    interaction := types.GetId(EntityInteractionKind);
  }

  /** A dispatch of one event against a registry consists of the calls for its tag. */
  lemma DeliverOne(m: Registry, e: Event)
    ensures Deliveries(m, [e]) == Notify(Lookup(m, e.tag), e)
  {
    DeliveriesCons(m, e, []);
    assert Notify(Lookup(m, e.tag), e) + [] == Notify(Lookup(m, e.tag), e);
  }

  /** A single registration is called once. */
  lemma NotifyOne(r: Registration, e: Event)
    ensures Notify([r], e) == [Invocation(r, e)]
  {
    assert [r][1..] == [];
  }

  /** Queuing calls nothing; the following drain calls the one listener once. */
  method QueueThenProcess() returns (e: Event, id: ListenerID, queued: seq<Invocation>, processed: seq<Invocation>)
    ensures e.payload == PlayerInput(Move, 0.0, 0.0, 0)
    ensures queued == []
    ensures processed == [Invocation(Registration(id, Callback(0)), e)]
  {
    var types := new TypeIds<Variant>();
    var dispatcher := new EventDispatcher();
    var tag := types.GetId(PlayerInputKind);
    id := dispatcher.AddListener(tag, Callback(0));
    ghost var m := dispatcher.listeners;
    e := NewPlayerInput(types);
    dispatcher.QueueEvent(e);
    queued := dispatcher.trace;
    dispatcher.ProcessEvents();
    processed := dispatcher.trace;
    DeliverOne(m, e);
    assert Lookup(m, e.tag) == [Registration(id, Callback(0))];
  }

  /** After its removal, a listener is not called for an event of its kind any more. */
  method RemovedListenerIsNotCalled() returns (e: Event, id: ListenerID, first: seq<Invocation>, second: seq<Invocation>)
    ensures first == [Invocation(Registration(id, Callback(0)), e)]
    ensures second == first
  {
    var types := new TypeIds<Variant>();
    var dispatcher := new EventDispatcher();
    var tag := types.GetId(PlayerInputKind);
    id := dispatcher.AddListener(tag, Callback(0));
    e := NewPlayerInput(types);
    ghost var m := dispatcher.listeners;
    dispatcher.QueueEvent(e);
    dispatcher.ProcessEvents();
    first := dispatcher.trace;
    DeliverOne(m, e);
    assert Lookup(m, e.tag) == [Registration(id, Callback(0))];

    dispatcher.RemoveListener(tag, id);
    ghost var m' := dispatcher.listeners;
    assert Without([Registration(id, Callback(0))], id) == [];
    assert Lookup(m', e.tag) == [];
    dispatcher.QueueEvent(e);
    dispatcher.ProcessEvents();
    second := dispatcher.trace;
    DeliverOne(m', e);
  }

  /** Two listeners of one kind are both called, once each, in registration order. */
  method TwoListenersOneEvent() returns (e: Event, id1: ListenerID, id2: ListenerID, calls: seq<Invocation>)
    ensures id1 != id2
    ensures calls == [Invocation(Registration(id1, Callback(1)), e), Invocation(Registration(id2, Callback(2)), e)]
  {
    var types := new TypeIds<Variant>();
    var dispatcher := new EventDispatcher();
    var tag := types.GetId(PlayerInputKind);
    id1 := dispatcher.AddListener(tag, Callback(1));
    id2 := dispatcher.AddListener(tag, Callback(2));
    ghost var m := dispatcher.listeners;
    assert Lookup(m, tag) == [Registration(id1, Callback(1)), Registration(id2, Callback(2))];
    e := NewPlayerInput(types);
    dispatcher.QueueEvent(e);
    dispatcher.ProcessEvents();
    calls := dispatcher.trace;
    DeliverOne(m, e);
  }

  /** Of two queued events with different tags, the drain of the first one's tag takes it and keeps the other. */
  lemma SplitPair(a: Event, b: Event)
    requires a.tag != b.tag
    ensures OfKind([a, b], a.tag) == [a] && NotOfKind([a, b], a.tag) == [b]
  {
    assert [a, b][1..] == [b] && [b][1..] == [];
    NoneOfKind([b], a.tag);
    assert OfKind([a, b], a.tag) == [a] + OfKind([b], a.tag);
    assert NotOfKind([a, b], a.tag) == [] + NotOfKind([b], a.tag);
  }

  /**
    A PlayerInput and a GameStateChange are queued; draining the PlayerInput
    kind calls only its listener and keeps the other event, which the
    following full drain then delivers.
  */
  method FilteredThenFull() returns (input: Event, change: Event, onInput: ListenerID, onChange: ListenerID,
                                     afterFiltered: seq<Invocation>, kept: seq<Event>, afterFull: seq<Invocation>)
    ensures afterFiltered == [Invocation(Registration(onInput, Callback(1)), input)]
    ensures kept == [change]
    ensures afterFull == afterFiltered + [Invocation(Registration(onChange, Callback(2)), change)]
  {
    var types := new TypeIds<Variant>();
    input := NewPlayerInput(types);
    change := NewGameStateChange(types);
    assert input.tag != change.tag;
    var dispatcher := new EventDispatcher();
    onInput := dispatcher.AddListener(input.tag, Callback(1));
    onChange := dispatcher.AddListener(change.tag, Callback(2));
    ghost var m := dispatcher.listeners;
    assert Lookup(m, input.tag) == [Registration(onInput, Callback(1))];
    assert Lookup(m, change.tag) == [Registration(onChange, Callback(2))];
    dispatcher.QueueEvent(input);
    dispatcher.QueueEvent(change);
    assert dispatcher.eventQueue == [input, change];
    SplitPair(input, change);
    DeliverOne(m, input);
    NotifyOne(Registration(onInput, Callback(1)), input);
    dispatcher.ProcessEventsOfType(input.tag);
    afterFiltered := dispatcher.trace;
    kept := dispatcher.eventQueue;

    ghost var m' := dispatcher.listeners;
    assert Lookup(m', change.tag) == [Registration(onChange, Callback(2))];
    DeliverOne(m', change);
    NotifyOne(Registration(onChange, Callback(2)), change);
    dispatcher.ProcessEvents();
    afterFull := dispatcher.trace;
  }

  /** Draining a kind of which nothing is queued calls nothing and keeps the queue. */
  method FilteredDrainOfAbsentKind(d: EventDispatcher, k: int)
    requires d.Valid()
    requires forall i :: 0 <= i < |d.eventQueue| ==> d.eventQueue[i].tag != k
    modifies d
    ensures d.Valid()
    ensures d.eventQueue == old(d.eventQueue) && d.trace == old(d.trace)
    ensures forall k' :: Lookup(d.listeners, k') == Lookup(old(d.listeners), k')
  {
    NoneOfKind(d.eventQueue, k);
    d.ProcessEventsOfType(k);
  }

  /**
    Draining one kind and then everything makes the calls of one full drain,
    as a multiset: no call is lost or repeated, only those for kind `k` come
    first.
  */
  method FilteredThenFullDrain(d: EventDispatcher, k: int)
    requires d.Valid()
    modifies d
    ensures d.Valid() && d.eventQueue == []
    ensures |old(d.trace)| <= |d.trace| && d.trace[..|old(d.trace)|] == old(d.trace)
    ensures multiset(d.trace) == multiset(old(d.trace) + Deliveries(old(d.listeners), old(d.eventQueue)))
    ensures forall k' :: Lookup(d.listeners, k') == Lookup(old(d.listeners), k')
  {
    ghost var m, q, t := d.listeners, d.eventQueue, d.trace;
    d.ProcessEventsOfType(k);
    DeliveriesLookups(d.listeners, m, NotOfKind(q, k));
    d.ProcessEvents();
    SplitDrain(m, q, k);
    Associative(t, Deliveries(m, OfKind(q, k)), Deliveries(m, NotOfKind(q, k)));
    assert d.trace == t + (Deliveries(m, OfKind(q, k)) + Deliveries(m, NotOfKind(q, k)));
  }

  /** The registry after the example consumer's destructor has removed each (tag, handle) pair of `subs`, first to last. */
  function UnregisterAll(m: Registry, subs: seq<(int, ListenerID)>): Registry
    decreases |subs|
  {
    if subs == [] then m
    else Unregister(UnregisterAll(m, subs[..|subs| - 1]), subs[|subs| - 1].0, subs[|subs| - 1].1)
  }

  /**
    Registering fresh handles under three distinct tags and then removing
    them again, in the same order, leaves every tag reading what it read
    before.
  */
  lemma SubscribeThenUnsubscribe(m: Registry, next: ListenerID, t1: int, t2: int, t3: int,
                                 c1: Callback, c2: Callback, c3: Callback)
    requires RegistryValid(m, next)
    requires t1 != t2 && t2 != t3 && t1 != t3
    ensures forall k :: Lookup(UnregisterAll(
              Register(Register(Register(m, t1, Registration(next, c1)), t2, Registration(next + 1, c2)),
                       t3, Registration(next + 2, c3)),
              [(t1, next), (t2, next + 1), (t3, next + 2)]), k) == Lookup(m, k)
  {
    var subs := [(t1, next), (t2, next + 1), (t3, next + 2)];
    var r1, r2, r3 := Registration(next, c1), Registration(next + 1, c2), Registration(next + 2, c3);
    var m1 := Register(m, t1, r1);
    var m2 := Register(m1, t2, r2);
    var m3 := Register(m2, t3, r3);
    var u1 := Unregister(m3, t1, next);
    var u2 := Unregister(u1, t2, next + 1);
    var u3 := Unregister(u2, t3, next + 2);
    assert subs[..1][..0] == [] && subs[..2][..1] == subs[..1] && subs[..|subs| - 1] == subs[..2];
    assert UnregisterAll(m3, subs[..1]) == u1;
    assert UnregisterAll(m3, subs[..2]) == u2;
    assert UnregisterAll(m3, subs) == u3;
    forall k
      ensures Lookup(u3, k) == Lookup(m, k)
    {
      LookupRegister(m, t1, r1, k);
      LookupRegister(m1, t2, r2, k);
      LookupRegister(m2, t3, r3, k);
      LookupUnregister(m3, t1, next, k);
      LookupUnregister(u1, t2, next + 1, k);
      LookupUnregister(u2, t3, next + 2, k);
      if k == t1 || k == t2 || k == t3 {
        var id := if k == t1 then next else if k == t2 then next + 1 else next + 2;
        var cb := if k == t1 then c1 else if k == t2 then c2 else c3;
        forall r | r in Lookup(m, k)
          ensures r.id != id
        {
          assert Registered(m, k, r);
        }
        AddThenRemove(Lookup(m, k), id, cb);
      }
    }
  }

  /**
    The example consumer's constructor: one listener for each of the three
    kinds, with the (tag, handle) pairs kept for its destructor.
  */
  method Subscribe(d: EventDispatcher, t1: int, t2: int, t3: int, c1: Callback, c2: Callback, c3: Callback)
    returns (subs: seq<(int, ListenerID)>)
    requires d.Valid()
    modifies d
    ensures d.Valid()
    ensures subs == [(t1, old(d.nextListenerID)), (t2, old(d.nextListenerID) + 1), (t3, old(d.nextListenerID) + 2)]
    ensures d.listeners == Register(Register(Register(old(d.listeners), t1, Registration(subs[0].1, c1)),
                                            t2, Registration(subs[1].1, c2)), t3, Registration(subs[2].1, c3))
    ensures d.nextListenerID == old(d.nextListenerID) + 3
    ensures d.eventQueue == old(d.eventQueue) && d.trace == old(d.trace)
  {
    var id1 := d.AddListener(t1, c1);
    var id2 := d.AddListener(t2, c2);
    var id3 := d.AddListener(t3, c3);
    subs := [(t1, id1), (t2, id2), (t3, id3)];
  }

  /** The example consumer's destructor: each kept pair is removed from the dispatcher, first to last. */
  method Unsubscribe(d: EventDispatcher, subs: seq<(int, ListenerID)>)
    requires d.Valid()
    modifies d
    ensures d.Valid()
    ensures d.listeners == UnregisterAll(old(d.listeners), subs)
    ensures d.nextListenerID == old(d.nextListenerID)
    ensures d.eventQueue == old(d.eventQueue) && d.trace == old(d.trace)
  {
    for i := 0 to |subs|
      invariant d.Valid()
      invariant d.listeners == UnregisterAll(old(d.listeners), subs[..i])
      invariant d.nextListenerID == old(d.nextListenerID)
      invariant d.eventQueue == old(d.eventQueue) && d.trace == old(d.trace)
    {
      assert subs[..i + 1][..i] == subs[..i];
      d.RemoveListener(subs[i].0, subs[i].1);
    }
    assert subs[..|subs|] == subs;
  }

  /**
    The example consumer's whole life against one dispatcher: afterwards every
    kind reads the registrations it had before, and only the handle counter
    has moved on.
  */
  method PlayerLifetime(d: EventDispatcher, types: TypeIds<Variant>, onInput: Callback, onChange: Callback,
                        onInteraction: Callback)
    requires d.Valid() && types.Valid()
    modifies d, types
    ensures d.Valid() && types.Valid()
    ensures forall k :: Lookup(d.listeners, k) == Lookup(old(d.listeners), k)
    ensures d.nextListenerID == old(d.nextListenerID) + 3
    ensures d.eventQueue == old(d.eventQueue) && d.trace == old(d.trace)
  {
    var t1 := types.GetId(PlayerInputKind);
    var t2 := types.GetId(GameStateChangeKind);
    var t3 := types.GetId(EntityInteractionKind);
    ghost var m, next := d.listeners, d.nextListenerID;
    var subs := Subscribe(d, t1, t2, t3, onInput, onChange, onInteraction);
    Unsubscribe(d, subs);
    SubscribeThenUnsubscribe(m, next, t1, t2, t3, onInput, onChange, onInteraction);
  }
}
