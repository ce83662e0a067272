/**
  What draining the event queue does, as functions of the queue and the
  registry: which events a filtered drain takes and which it keeps, and the
  listener calls a drain makes, in the order it makes them.
*/
module EventQueue {
  import opened Events
  import opened Listeners

  /** One listener call: `pair.second(*e)` for the registration `listener` and the event `event`. */
  datatype Invocation = Invocation(listener: Registration, event: Event)

  /** The queued events whose tag is `k`, in queue order. */
  function OfKind(q: seq<Event>, k: int): seq<Event> {
    if q == [] then [] else (if q[0].tag == k then [q[0]] else []) + OfKind(q[1..], k)
  }

  /** The queued events whose tag is not `k`, in queue order. */
  function NotOfKind(q: seq<Event>, k: int): seq<Event> {
    if q == [] then [] else (if q[0].tag == k then [] else [q[0]]) + NotOfKind(q[1..], k)
  }

  /** The tags of the queued events. */
  function Tags(q: seq<Event>): set<int> {
    if q == [] then {} else {q[0].tag} + Tags(q[1..])
  }

  /**
    The inner `for (const auto& pair : listeners[tag])`: every registration
    of `regs` is called with `e` exactly once, in registration order.
  */
  function Notify(regs: seq<Registration>, e: Event): (calls: seq<Invocation>)
    ensures |calls| == |regs|
    ensures forall i :: 0 <= i < |regs| ==> calls[i] == Invocation(regs[i], e)
  {
    if regs == [] then [] else [Invocation(regs[0], e)] + Notify(regs[1..], e)
  }

  /** The calls that dispatching the events of `q` in FIFO order makes against registry `m`. */
  function Deliveries(m: Registry, q: seq<Event>): seq<Invocation> {
    if q == [] then [] else Notify(Lookup(m, q[0].tag), q[0]) + Deliveries(m, q[1..])
  }

  /** Concatenation is associative. */
  lemma Associative<T>(a: seq<T>, b: seq<T>, c: seq<T>)
    ensures (a + b) + c == a + (b + c)
  {
  }

  /** Filtering by kind distributes over concatenation. */
  lemma {:induction false} KindAppend(a: seq<Event>, b: seq<Event>, k: int)
    ensures OfKind(a + b, k) == OfKind(a, k) + OfKind(b, k)
    ensures NotOfKind(a + b, k) == NotOfKind(a, k) + NotOfKind(b, k)
  {
    if a == [] {
      assert a + b == b;
    } else {
      assert (a + b)[0] == a[0] && (a + b)[1..] == a[1..] + b;
      KindAppend(a[1..], b, k);
      var taken, kept := if a[0].tag == k then [a[0]] else [], if a[0].tag == k then [] else [a[0]];
      assert OfKind(a + b, k) == taken + (OfKind(a[1..], k) + OfKind(b, k));
      Associative(taken, OfKind(a[1..], k), OfKind(b, k));
      assert NotOfKind(a + b, k) == kept + (NotOfKind(a[1..], k) + NotOfKind(b, k));
      Associative(kept, NotOfKind(a[1..], k), NotOfKind(b, k));
    }
  }

  /** An event is taken by the filtered drain exactly when it is queued with tag `k`, and kept otherwise. */
  lemma {:induction false} KindMembers(q: seq<Event>, k: int)
    ensures forall e :: e in OfKind(q, k) <==> e in q && e.tag == k
    ensures forall e :: e in NotOfKind(q, k) <==> e in q && e.tag != k
  {
    if q != [] {
      KindMembers(q[1..], k);
      assert q == [q[0]] + q[1..];
    }
  }

  /** The filtered drain neither drops nor duplicates an event: the two parts make up the queue. */
  lemma {:induction false} KindPartition(q: seq<Event>, k: int)
    ensures multiset(OfKind(q, k)) + multiset(NotOfKind(q, k)) == multiset(q)
    ensures |OfKind(q, k)| + |NotOfKind(q, k)| == |q|
  {
    if q != [] {
      KindPartition(q[1..], k);
      assert q == [q[0]] + q[1..];
    }
  }

  /** With no event of tag `k` queued, nothing is taken and the queue is kept as it is. */
  lemma {:induction false} NoneOfKind(q: seq<Event>, k: int)
    requires forall i :: 0 <= i < |q| ==> q[i].tag != k
    ensures OfKind(q, k) == []
    ensures NotOfKind(q, k) == q
  {
    if q != [] {
      NoneOfKind(q[1..], k);
    }
  }

  /** Dispatching `a` and then `b` makes the calls of `a` and then the calls of `b`. */
  lemma {:induction false} DeliveriesAppend(m: Registry, a: seq<Event>, b: seq<Event>)
    ensures Deliveries(m, a + b) == Deliveries(m, a) + Deliveries(m, b)
  {
    if a == [] {
      assert a + b == b;
    } else {
      assert (a + b)[0] == a[0] && (a + b)[1..] == a[1..] + b;
      DeliveriesAppend(m, a[1..], b);
    }
  }

  /**
    A call is made exactly when its event is queued and its registration is
    in the vector for the event's tag.
  */
  lemma {:induction false} DeliveriesMembers(m: Registry, q: seq<Event>)
    ensures forall c :: c in Deliveries(m, q) <==> c.event in q && c.listener in Lookup(m, c.event.tag)
  {
    if q != [] {
      DeliveriesMembers(m, q[1..]);
      assert q == [q[0]] + q[1..];
      var regs := Lookup(m, q[0].tag);
      var n := Notify(regs, q[0]);
      assert forall c :: c in n <==> c.event == q[0] && c.listener in regs by {
        forall c | c in n ensures c.event == q[0] && c.listener in regs {
          var i :| 0 <= i < |n| && n[i] == c;
        }
        forall c: Invocation | c.event == q[0] && c.listener in regs ensures c in n {
          var i :| 0 <= i < |regs| && regs[i] == c.listener;
          assert n[i] == c;
        }
      }
    }
  }

  /** The calls of `t` made on events of tag `k`, in the order made. */
  function CallsOfKind(t: seq<Invocation>, k: int): seq<Invocation> {
    if t == [] then [] else (if t[0].event.tag == k then [t[0]] else []) + CallsOfKind(t[1..], k)
  }

  /** Filtering calls by tag distributes over concatenation. */
  lemma {:induction false} CallsOfKindAppend(a: seq<Invocation>, b: seq<Invocation>, k: int)
    ensures CallsOfKind(a + b, k) == CallsOfKind(a, k) + CallsOfKind(b, k)
  {
    if a == [] {
      assert a + b == b;
    } else {
      assert (a + b)[0] == a[0] && (a + b)[1..] == a[1..] + b;
      CallsOfKindAppend(a[1..], b, k);
      var head := if a[0].event.tag == k then [a[0]] else [];
      assert CallsOfKind(a + b, k) == head + (CallsOfKind(a[1..], k) + CallsOfKind(b, k));
      Associative(head, CallsOfKind(a[1..], k), CallsOfKind(b, k));
    }
  }

  /** The calls for one event are all of tag `k` or none of them are. */
  lemma {:induction false} CallsOfKindNotify(regs: seq<Registration>, e: Event, k: int)
    ensures CallsOfKind(Notify(regs, e), k) == if e.tag == k then Notify(regs, e) else []
  {
    if regs != [] {
      CallsOfKindNotify(regs[1..], e, k);
      var n := Notify(regs, e);
      assert n[0] == Invocation(regs[0], e) && n[1..] == Notify(regs[1..], e);
      if e.tag == k {
        assert n == [n[0]] + n[1..];
      }
    }
  }

  /**
    The filtered drain makes exactly the calls of the full drain that are on
    events of tag `k`: the same calls, as often and in the same order.
  */
  lemma {:induction false} OfKindDeliveries(m: Registry, q: seq<Event>, k: int)
    ensures Deliveries(m, OfKind(q, k)) == CallsOfKind(Deliveries(m, q), k)
  {
    if q != [] {
      var rest := q[1..];
      OfKindDeliveries(m, rest, k);
      var n := Notify(Lookup(m, q[0].tag), q[0]);
      assert q == [q[0]] + rest;
      DeliveriesCons(m, q[0], rest);
      CallsOfKindAppend(n, Deliveries(m, rest), k);
      CallsOfKindNotify(Lookup(m, q[0].tag), q[0], k);
      if q[0].tag == k {
        assert OfKind(q, k) == [q[0]] + OfKind(rest, k);
        DeliveriesCons(m, q[0], OfKind(rest, k));
      } else {
        assert OfKind(q, k) == [] + OfKind(rest, k) == OfKind(rest, k);
        assert CallsOfKind(Deliveries(m, q), k) == [] + CallsOfKind(Deliveries(m, rest), k);
      }
    }
  }

  /** Each call of the filtered drain is on a queued event of tag `k`, and is one the full drain makes. */
  lemma OfKindDeliveriesMembers(m: Registry, q: seq<Event>, k: int)
    ensures forall c :: c in Deliveries(m, OfKind(q, k)) ==> c.event.tag == k && c.event in q
    ensures forall c :: c in Deliveries(m, OfKind(q, k)) <==> c in Deliveries(m, q) && c.event.tag == k
  {
    DeliveriesMembers(m, OfKind(q, k));
    DeliveriesMembers(m, q);
    KindMembers(q, k);
  }

  /** A drain depends on the registry only through what each tag reads. */
  lemma {:induction false} DeliveriesLookups(m: Registry, m': Registry, q: seq<Event>)
    requires forall k :: Lookup(m, k) == Lookup(m', k)
    ensures Deliveries(m, q) == Deliveries(m', q)
  {
    if q != [] {
      DeliveriesLookups(m, m', q[1..]);
      assert Lookup(m, q[0].tag) == Lookup(m', q[0].tag);
    }
  }

  /**
    Once handle `id` is removed from the vector for `k`, no event of tag `k`
    reaches it, and every other registration for `k` is still called with
    every queued event of tag `k`.
  */
  lemma RemovedNotDelivered(m: Registry, k: int, id: ListenerID, q: seq<Event>)
    ensures forall c :: c in Deliveries(m[k := Without(Lookup(m, k), id)], q) && c.event.tag == k ==>
              c.listener.id != id
    ensures forall r, e :: r in Lookup(m, k) && r.id != id && e in q && e.tag == k ==>
              Invocation(r, e) in Deliveries(m[k := Without(Lookup(m, k), id)], q)
  {
    var m' := m[k := Without(Lookup(m, k), id)];
    DeliveriesMembers(m', q);
    WithoutMembers(Lookup(m, k), id);
    assert Lookup(m', k) == Without(Lookup(m, k), id);
  }

  /** Dispatching `e` ahead of `q` makes the calls for `e` and then those for `q`. */
  lemma DeliveriesCons(m: Registry, e: Event, q: seq<Event>)
    ensures Deliveries(m, [e] + q) == Notify(Lookup(m, e.tag), e) + Deliveries(m, q)
  {
    assert ([e] + q)[0] == e && ([e] + q)[1..] == q;
  }

  /** One step of a full drain: the calls for the front event come first, then those for the rest. */
  lemma DrainStep(m: Registry, t: seq<Invocation>, q: seq<Event>)
    requires q != []
    ensures (t + Notify(Lookup(m, q[0].tag), q[0])) + Deliveries(m, q[1..]) == t + Deliveries(m, q)
  {
    var n, rest := Notify(Lookup(m, q[0].tag), q[0]), Deliveries(m, q[1..]);
    assert Deliveries(m, q) == n + rest;
    Associative(t, n, rest);
  }

  /** Popping the front event takes its tag off the front of the queue's tags. */
  lemma TagsStep(q: seq<Event>)
    requires q != []
    ensures Tags(q) == {q[0].tag} + Tags(q[1..])
  {
    assert q == [q[0]] + q[1..];
  }

  /** One step of a filtered drain whose front event has tag `k`: it is dispatched, and none is kept. */
  lemma TakeStep(m: Registry, t: seq<Invocation>, q: seq<Event>, k: int)
    requires q != [] && q[0].tag == k
    ensures OfKind(q, k) != [] && NotOfKind(q, k) == NotOfKind(q[1..], k)
    ensures (t + Notify(Lookup(m, k), q[0])) + Deliveries(m, OfKind(q[1..], k)) == t + Deliveries(m, OfKind(q, k))
  {
    var n, rest := Notify(Lookup(m, k), q[0]), OfKind(q[1..], k);
    assert OfKind(q, k) == [q[0]] + rest;
    DeliveriesCons(m, q[0], rest);
    Associative(t, n, Deliveries(m, rest));
    assert NotOfKind(q, k) == [] + NotOfKind(q[1..], k);
  }

  /** One step of a filtered drain whose front event has another tag: it is kept, and none is dispatched. */
  lemma KeepStep(kept: seq<Event>, q: seq<Event>, k: int)
    requires q != [] && q[0].tag != k
    ensures OfKind(q, k) == OfKind(q[1..], k)
    ensures (kept + [q[0]]) + NotOfKind(q[1..], k) == kept + NotOfKind(q, k)
  {
    assert NotOfKind(q, k) == [q[0]] + NotOfKind(q[1..], k);
    Associative(kept, [q[0]], NotOfKind(q[1..], k));
    assert OfKind(q, k) == [] + OfKind(q[1..], k);
  }

  /** Putting `n` in front of either part of a split keeps the split's multiset. */
  lemma MultisetPrefix<T>(n: seq<T>, taken: seq<T>, kept: seq<T>, all: seq<T>)
    requires multiset(taken + kept) == multiset(all)
    ensures multiset((n + taken) + kept) == multiset(n + all)
    ensures multiset(taken + (n + kept)) == multiset(n + all)
  {
  }

  /** The full drain of a non-empty queue starts with the calls for its front event. */
  lemma DeliveriesFront(m: Registry, q: seq<Event>)
    requires q != []
    ensures Deliveries(m, q) == Notify(Lookup(m, q[0].tag), q[0]) + Deliveries(m, q[1..])
  {
  }

  /** With a front event of tag `k`, the filtered drain starts with its calls and the kept part loses nothing. */
  lemma SplitTakeFront(m: Registry, q: seq<Event>, k: int)
    requires q != [] && q[0].tag == k
    ensures Deliveries(m, OfKind(q, k)) == Notify(Lookup(m, k), q[0]) + Deliveries(m, OfKind(q[1..], k))
    ensures NotOfKind(q, k) == NotOfKind(q[1..], k)
  {
    assert OfKind(q, k) == [q[0]] + OfKind(q[1..], k);
    DeliveriesCons(m, q[0], OfKind(q[1..], k));
    assert NotOfKind(q, k) == [] + NotOfKind(q[1..], k);
  }

  /** With a front event of another tag, the kept part's drain starts with its calls and the filtered drain loses nothing. */
  lemma SplitKeepFront(m: Registry, q: seq<Event>, k: int)
    requires q != [] && q[0].tag != k
    ensures Deliveries(m, NotOfKind(q, k)) == Notify(Lookup(m, q[0].tag), q[0]) + Deliveries(m, NotOfKind(q[1..], k))
    ensures OfKind(q, k) == OfKind(q[1..], k)
  {
    assert NotOfKind(q, k) == [q[0]] + NotOfKind(q[1..], k);
    DeliveriesCons(m, q[0], NotOfKind(q[1..], k));
    assert OfKind(q, k) == [] + OfKind(q[1..], k);
  }

  /**
    Draining tag `k` first and everything else afterwards makes the same
    calls as one full drain, only with the calls for tag `k` moved first.
  */
  lemma {:induction false} SplitDrain(m: Registry, q: seq<Event>, k: int)
    ensures multiset(Deliveries(m, OfKind(q, k)) + Deliveries(m, NotOfKind(q, k))) == multiset(Deliveries(m, q))
  {
    if q != [] {
      var rest := q[1..];
      SplitDrain(m, rest, k);
      var n := Notify(Lookup(m, q[0].tag), q[0]);
      MultisetPrefix(n, Deliveries(m, OfKind(rest, k)), Deliveries(m, NotOfKind(rest, k)), Deliveries(m, rest));
      DeliveriesFront(m, q);
      if q[0].tag == k {
        SplitTakeFront(m, q, k);
      } else {
        SplitKeepFront(m, q, k);
      }
    }
  }
}
