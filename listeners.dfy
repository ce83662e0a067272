/**
  The listener registry: `std::map<int, std::vector<EventListenerPair>>`,
  one vector of (ListenerID, callback) pairs per event tag, in registration
  order.
*/
module Listeners {

  /** `std::size_t`; the handle counter is taken to never wrap around. */
  type ListenerID = nat

  /**
    A `std::function<void(const Event&)>`, seen only as an identity: what it
    does when called is outside this model, and it does not touch the
    dispatcher.
  */
  datatype Callback = Callback(token: nat)

  /** An EventListenerPair: the handle issued for the registration and the callback. */
  datatype Registration = Registration(id: ListenerID, callback: Callback)

  type Registry = map<int, seq<Registration>>

  /** The vector for tag `k`; `listeners[k]` reads an empty vector when `k` was never used. */
  function Lookup(m: Registry, k: int): seq<Registration> {
    if k in m then m[k] else []
  }

  /** The registry after `listeners[k].emplace_back(r)`. */
  function Register(m: Registry, k: int, r: Registration): Registry {
    m[k := Lookup(m, k) + [r]]
  }

  /** The registrations whose handle is not `id`, in their original order. */
  function Without(s: seq<Registration>, id: ListenerID): seq<Registration> {
    if s == [] then [] else (if s[0].id == id then [] else [s[0]]) + Without(s[1..], id)
  }

  /** The handle of the `i`-th pair of a vector. */
  function IdAt(s: seq<Registration>, i: nat): ListenerID
    requires i < |s|
  {
    s[i].id
  }

  /** The handles within one vector grow strictly, in registration order. */
  predicate Increasing(s: seq<Registration>) {
    forall i: nat, j: nat :: i < j < |s| ==> IdAt(s, i) < IdAt(s, j)
  }

  /** Pair `r` is in the vector stored for tag `k`. */
  ghost predicate Registered(m: Registry, k: int, r: Registration) {
    k in m && r in m[k]
  }

  /**
    What the handle counter guarantees of the registry: every handle in it
    is below the counter, handles grow along each vector, and no handle is
    registered under two tags.
  */
  ghost predicate RegistryValid(m: Registry, next: ListenerID) {
    && (forall k, r :: Registered(m, k, r) ==> r.id < next)
    && (forall k :: k in m ==> Increasing(m[k]))
    && (forall k1, k2, r1, r2 :: Registered(m, k1, r1) && Registered(m, k2, r2) && k1 != k2 ==> r1.id != r2.id)
  }

  /** The registry after the pairs with handle `id` are erased from `listeners[k]`. */
  function Unregister(m: Registry, k: int, id: ListenerID): Registry {
    m[k := Without(Lookup(m, k), id)]
  }

  /** Registering under `k` appends to the vector for `k`; every other tag reads what it read before. */
  lemma LookupRegister(m: Registry, k: int, r: Registration, k': int)
    ensures Lookup(Register(m, k, r), k') == if k' == k then Lookup(m, k) + [r] else Lookup(m, k')
  {
  }

  /** Removing under `k` filters the vector for `k`; every other tag reads what it read before. */
  lemma LookupUnregister(m: Registry, k: int, id: ListenerID, k': int)
    ensures Lookup(Unregister(m, k, id), k') == if k' == k then Without(Lookup(m, k), id) else Lookup(m, k')
  {
  }

  /** A registration survives removal of `id` exactly when it was there and has another handle. */
  lemma {:induction false} WithoutMembers(s: seq<Registration>, id: ListenerID)
    ensures forall r :: r in Without(s, id) <==> r in s && r.id != id
  {
    if s != [] {
      WithoutMembers(s[1..], id);
      assert s == [s[0]] + s[1..];
    }
  }

  /** Removing a handle that is not in the vector changes nothing. */
  lemma {:induction false} WithoutAbsent(s: seq<Registration>, id: ListenerID)
    requires forall i :: 0 <= i < |s| ==> s[i].id != id
    ensures Without(s, id) == s
  {
    if s != [] {
      WithoutAbsent(s[1..], id);
    }
  }

  /** Removing the same handle twice is the same as removing it once. */
  lemma WithoutIdempotent(s: seq<Registration>, id: ListenerID)
    ensures Without(Without(s, id), id) == Without(s, id)
  {
    WithoutMembers(s, id);
    var w := Without(s, id);
    assert forall i :: 0 <= i < |w| ==> w[i] in w;
    WithoutAbsent(w, id);
  }

  /** Removal distributes over concatenation. */
  lemma {:induction false} WithoutAppend(a: seq<Registration>, b: seq<Registration>, id: ListenerID)
    ensures Without(a + b, id) == Without(a, id) + Without(b, id)
  {
    if a != [] {
      var head := if a[0].id == id then [] else [a[0]];
      assert (a + b)[0] == a[0] && (a + b)[1..] == a[1..] + b;
      calc {
        Without(a + b, id);
        head + Without(a[1..] + b, id);
        { WithoutAppend(a[1..], b, id); }
        head + (Without(a[1..], id) + Without(b, id));
        Without(a, id) + Without(b, id);
      }
    } else {
      assert a + b == b;
    }
  }

  /** Removal keeps the survivors in their order, so the handles still grow along the vector. */
  lemma {:induction false} WithoutIncreasing(s: seq<Registration>, id: ListenerID)
    requires Increasing(s)
    ensures Increasing(Without(s, id))
  {
    if s != [] {
      var t := s[1..];
      forall i: nat, j: nat | i < j < |t|
        ensures IdAt(t, i) < IdAt(t, j)
      {
        assert IdAt(t, i) == IdAt(s, i + 1) && IdAt(t, j) == IdAt(s, j + 1);
      }
      WithoutIncreasing(t, id);
      WithoutMembers(t, id);
      var w := Without(t, id);
      if s[0].id != id {
        var v := [s[0]] + w;
        assert Without(s, id) == v;
        forall i: nat, j: nat | i < j < |v|
          ensures IdAt(v, i) < IdAt(v, j)
        {
          if i == 0 {
            assert v[j] == w[j - 1] && w[j - 1] in w;
            var j' :| 0 <= j' < |t| && t[j'] == w[j - 1];
            assert IdAt(s, 0) < IdAt(s, j' + 1);
          } else {
            assert IdAt(v, i) == IdAt(w, i - 1) && IdAt(v, j) == IdAt(w, j - 1);
          }
        }
      } else {
        assert Without(s, id) == w;
      }
    }
  }

  /** Registering a fresh handle and removing it again leaves the vector as it was. */
  lemma AddThenRemove(s: seq<Registration>, id: ListenerID, cb: Callback)
    requires forall r :: r in s ==> r.id != id
    ensures Without(s + [Registration(id, cb)], id) == s
  {
    WithoutAppend(s, [Registration(id, cb)], id);
    WithoutAbsent(s, id);
  }

  /**
    `addListener(k, cb)` appends (next, cb) to the vector for `k` and moves
    the counter on: the registry stays valid and the new handle was in use
    nowhere.
  */
  lemma AddKeepsValid(m: Registry, next: ListenerID, k: int, cb: Callback)
    requires RegistryValid(m, next)
    ensures RegistryValid(Register(m, k, Registration(next, cb)), next + 1)
    ensures forall k', r :: k' in m && r in m[k'] ==> r.id < next
  {
    var s := Lookup(m, k);
    var r0 := Registration(next, cb);
    var m' := m[k := s + [r0]];
    assert forall r :: r in s + [r0] ==> r in s || r == r0;
    assert forall r :: r in s ==> Registered(m, k, r);
    forall k1, r | Registered(m', k1, r)
      ensures r.id < next + 1
    {
      if k1 != k {
        assert Registered(m, k1, r);
      }
    }
    forall k1 | k1 in m'
      ensures Increasing(m'[k1])
    {
      if k1 == k {
        var v := s + [r0];
        forall i: nat, j: nat | i < j < |v|
          ensures IdAt(v, i) < IdAt(v, j)
        {
          assert v[i] == s[i] && s[i] in s;
          if j < |s| {
            assert IdAt(v, i) == IdAt(s, i) && IdAt(v, j) == IdAt(s, j);
          }
        }
      }
    }
    forall k1, k2, r1, r2 | Registered(m', k1, r1) && Registered(m', k2, r2) && k1 != k2
      ensures r1.id != r2.id
    {
      if k1 == k && r1 == r0 {
        assert Registered(m, k2, r2);
      } else if k2 == k && r2 == r0 {
        assert Registered(m, k1, r1);
      } else {
        assert Registered(m, k1, r1) && Registered(m, k2, r2);
      }
    }
    forall k', r | k' in m && r in m[k']
      ensures r.id < next
    {
      assert Registered(m, k', r);
    }
  }

  /** `removeListener(k, id)` filters the vector for `k`: the registry stays valid. */
  lemma RemoveKeepsValid(m: Registry, next: ListenerID, k: int, id: ListenerID)
    requires RegistryValid(m, next)
    ensures RegistryValid(Unregister(m, k, id), next)
  {
    var m' := m[k := Without(Lookup(m, k), id)];
    WithoutMembers(Lookup(m, k), id);
    if k in m {
      WithoutIncreasing(m[k], id);
    }
    assert forall k1, r :: Registered(m', k1, r) ==> Registered(m, k1, r);
  }

  /** Validity depends only on what `listeners[k]` reads for each tag. */
  lemma SameLookupsKeepValid(m: Registry, m': Registry, next: ListenerID)
    requires RegistryValid(m, next)
    requires forall k :: Lookup(m', k) == Lookup(m, k)
    ensures RegistryValid(m', next)
  {
    forall k | k in m'
      ensures m'[k] == Lookup(m, k)
    {
      assert Lookup(m', k) == m'[k];
    }
    forall k, r | Registered(m', k, r)
      ensures Registered(m, k, r)
    {
      assert Lookup(m', k) == m'[k];
    }
  }

  /** One step of the filter: the front pair is kept or dropped, and the rest is filtered after it. */
  lemma WithoutStep(kept: seq<Registration>, s: seq<Registration>, id: ListenerID)
    requires s != []
    ensures (kept + (if s[0].id == id then [] else [s[0]])) + Without(s[1..], id) == kept + Without(s, id)
  {
    var head := if s[0].id == id then [] else [s[0]];
    assert Without(s, id) == head + Without(s[1..], id);
    assert (kept + head) + Without(s[1..], id) == kept + (head + Without(s[1..], id));
  }

  /**
    The single pass of `removeListener` over one tag's vector: it moves the
    pairs with another handle to the front, in their order, and cuts the
    vector after them.
  */
  method RemoveIf(s: seq<Registration>, id: ListenerID) returns (kept: seq<Registration>)
    ensures kept == Without(s, id)
  {
    kept := [];
    var i := 0;
    while i < |s|
      invariant 0 <= i <= |s|
      invariant kept + Without(s[i..], id) == Without(s, id)
    {
      assert s[i..][0] == s[i] && s[i..][1..] == s[i + 1..];
      WithoutStep(kept, s[i..], id);
      if s[i].id != id {
        kept := kept + [s[i]];
      } else {
        assert kept + [] == kept;
      }
      i := i + 1;
    }
  }
}
