/**
  Event kinds: the integer tags that EventTypeGenerator and EventType<T> hand out.

  In the C++ program EventTypeGenerator::getNextId keeps a function-local
  counter, and each instantiation EventType<T>::getId keeps a function-local
  `static int id` initialised by one call to getNextId the first time it runs.
  Here both pieces of static state live in one object: `nextId` is the
  counter and `ids` records, for every type T whose tag has been requested,
  the value its static was initialised with.
*/
module EventIdentity {

  /** The allocator's invariant: every tag handed out is in [0, next) and no two types share one. */
  predicate TagsValid<T>(ids: map<T, int>, next: int) {
    && 0 <= next
    && (forall t :: t in ids ==> 0 <= ids[t] < next)
    && (forall t, u :: t in ids && u in ids && t != u ==> ids[t] != ids[u])
  }

  /** The integers 0, 1, ..., n - 1. */
  function Below(n: nat): (s: set<int>)
    ensures forall i :: i in s <==> 0 <= i < n
    ensures |s| == n
  {
    if n == 0 then {} else Below(n - 1) + {n - 1}
  }

  /** An injective map into a finite set has no more keys than that set has elements. */
  lemma {:induction false} InjectiveBound<T>(ids: map<T, int>, values: set<int>)
    requires forall t :: t in ids ==> ids[t] in values
    requires forall t, u :: t in ids && u in ids && t != u ==> ids[t] != ids[u]
    ensures |ids| <= |values|
  {
    if ids != map[] {
      var t :| t in ids;
      var rest := ids - {t};
      assert forall u :: u in rest ==> rest[u] in values - {ids[t]};
      InjectiveBound(rest, values - {ids[t]});
      assert ids.Keys == rest.Keys + {t};
    }
  }

  /** No more types have a tag than the counter has handed out. */
  lemma TagCountBound<T>(ids: map<T, int>, next: int)
    requires TagsValid(ids, next)
    ensures |ids| <= next
  {
    InjectiveBound(ids, Below(next));
  }

  /** Allocating the counter's value to a type that had no tag keeps the invariant. */
  lemma AllocateKeepsTagsValid<T>(ids: map<T, int>, next: int, t: T)
    requires TagsValid(ids, next)
    requires t !in ids
    ensures TagsValid(ids[t := next], next + 1)
    ensures forall u :: u in ids ==> ids[u] != next
  {
  }

  class TypeIds<T(==)> {
    /** The `static int nextID` of EventTypeGenerator::getNextId. */
    var nextId: int
    /** The `static int id` of EventType<T>::getId, for each T that has been asked for its tag. */
    var ids: map<T, int>

    ghost predicate Valid()
      reads this
    {
      TagsValid(ids, nextId)
    }

    /** Program start: the counter is 0 and no static has been initialised. */
    constructor ()
      ensures Valid()
      ensures nextId == 0 && ids == map[]
    {
      nextId := 0;
      ids := map[];
    }

    /** Hands out the counter's current value and moves the counter on by one. */
    method GetNextId() returns (id: int)
      requires Valid()
      modifies this
      ensures Valid()
      ensures id == old(nextId) && nextId == old(nextId) + 1
      ensures ids == old(ids)
      ensures forall u :: u in ids ==> ids[u] < id
    {
      id := nextId;
      nextId := nextId + 1;
    }

    /**
      EventType<T>::getId: the first call for `t` allocates the next tag,
      every later call returns the same tag and changes nothing.
    */
    method GetId(t: T) returns (id: int)
      requires Valid()
      modifies this
      ensures Valid()
      ensures t in ids && ids[t] == id && 0 <= id < nextId
      ensures t in old(ids) ==> id == old(ids[t]) && ids == old(ids) && nextId == old(nextId)
      ensures t !in old(ids) ==> id == old(nextId) && nextId == old(nextId) + 1 && ids == old(ids)[t := id]
      ensures forall u :: u in old(ids) && u != t ==> u in ids && ids[u] == old(ids[u]) && ids[u] != id
    {
      if t !in ids {
        var tag := GetNextId();
        AllocateKeepsTagsValid(ids, tag, t);
        ids := ids[t := tag];
      }
      id := ids[t];
    }
  }
}
