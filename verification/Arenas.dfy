/** The generational arena: an indexed store whose handles go stale on removal. */
module Arenas {
  import opened Types
  import opened Sequences

  /** The value of an arena: what each live handle resolves to, the current
      generation of every slot, and the stack of free slots. */
  datatype Table<T> = Table(live: map<Handle, T>, generations: seq<nat>, free: seq<nat>)
  {
    predicate Has(h: Handle) { h in live }

    function At(h: Handle): T
      requires Has(h)
    {
      live[h]
    }

    function Get(h: Handle): Option<T> {
      if h in live then Some(live[h]) else None
    }
  }

  ghost predicate FreeInBounds<T>(t: Table<T>) {
    forall k :: 0 <= k < |t.free| ==> t.free[k] < |t.generations|
  }

  /** Live handles carry the current generation of their slot, and the free
      stack lists each slot without a live handle exactly once. */
  ghost predicate Consistent<T>(t: Table<T>) {
    && (forall h :: t.Has(h) ==> h.index < |t.generations| && h.generation == t.generations[h.index])
    && FreeInBounds(t)
    && (forall i :: 0 <= i < |t.generations| ==> (i in t.free <==> !t.Has(Handle(i, t.generations[i]))))
    && NoDuplicates(t.free)
  }

  /** The handle has been handed out at some point, whether or not it is live. */
  predicate Issued<T>(t: Table<T>, h: Handle) {
    h.index < |t.generations| && h.generation <= t.generations[h.index]
  }

  function Empty<T>(): Table<T> {
    Table(map[], [], [])
  }

  /** The handle the next insertion returns. */
  ghost function NextHandle<T>(t: Table<T>): Handle
    requires FreeInBounds(t)
  {
    if t.free == [] then Handle(|t.generations|, 0)
    else var i := t.free[|t.free| - 1]; Handle(i, t.generations[i] + 1)
  }

  ghost function Insert<T>(t: Table<T>, value: T): Table<T>
    requires FreeInBounds(t)
  {
    var h := NextHandle(t);
    if t.free == [] then Table(t.live[h := value], t.generations + [0], [])
    else Table(t.live[h := value], t.generations[h.index := h.generation], t.free[..|t.free| - 1])
  }

  function Remove<T>(t: Table<T>, h: Handle): Table<T> {
    if h in t.live then Table(t.live - {h}, t.generations, t.free + [h.index]) else t
  }

  function Update<T>(t: Table<T>, h: Handle, value: T): Table<T>
    requires t.Has(h)
  {
    t.(live := t.live[h := value])
  }

  /** Live handles in slot order, the order in which an arena is iterated. */
  function Order<T>(t: Table<T>): seq<Handle> {
    OrderUpTo(t.live.Keys, t.generations, |t.generations|)
  }

  function OrderUpTo(live: set<Handle>, generations: seq<nat>, n: nat): seq<Handle>
    requires n <= |generations|
  {
    if n == 0 then []
    else
      var h := Handle(n - 1, generations[n - 1]);
      OrderUpTo(live, generations, n - 1) + (if h in live then [h] else [])
  }

  lemma {:induction false} OrderUpToFacts(live: set<Handle>, generations: seq<nat>, n: nat)
    requires n <= |generations|
    ensures NoDuplicates(OrderUpTo(live, generations, n))
    ensures forall h :: h in OrderUpTo(live, generations, n) <==>
                        h in live && h.index < n && h.generation == generations[h.index]
  {
    if n > 0 {
      OrderUpToFacts(live, generations, n - 1);
      var rest, h := OrderUpTo(live, generations, n - 1), Handle(n - 1, generations[n - 1]);
      NoDuplicatesConcat(rest, [h]);
      assert rest + [] == rest;
    }
  }

  /** Iteration visits exactly the live handles, each once. */
  lemma OrderFacts<T>(t: Table<T>)
    requires Consistent(t)
    ensures NoDuplicates(Order(t))
    ensures forall h :: h in Order(t) <==> t.Has(h)
    ensures Elements(Order(t)) == t.live.Keys
    ensures |Order(t)| == |t.live|
  {
    OrderUpToFacts(t.live.Keys, t.generations, |t.generations|);
    assert Elements(Order(t)) == t.live.Keys;
    NoDuplicatesCardinality(Order(t));
  }

  /** Every slot is either live or free. */
  lemma LiveAndFree<T>(t: Table<T>)
    requires Consistent(t)
    ensures |t.live| + |t.free| == |t.generations|
  {
    OrderFacts(t);
    var n := |t.generations|;
    OrderAndFree(t, n);
    assert FreeBelow(t.free, n) == Elements(t.free);
    NoDuplicatesCardinality(t.free);
  }

  ghost function FreeBelow(free: seq<nat>, n: nat): set<nat> {
    set i | i in free && i < n
  }

  lemma {:induction false} OrderAndFree<T>(t: Table<T>, n: nat)
    requires Consistent(t) && n <= |t.generations|
    ensures |OrderUpTo(t.live.Keys, t.generations, n)| + |FreeBelow(t.free, n)| == n
  {
    if n == 0 {
      assert FreeBelow(t.free, 0) == {};
    } else {
      OrderAndFree(t, n - 1);
      var rest := FreeBelow(t.free, n - 1);
      assert FreeBelow(t.free, n) == if n - 1 in t.free then rest + {n - 1} else rest;
      assert n - 1 in t.free <==> !t.Has(Handle(n - 1, t.generations[n - 1]));
    }
  }

  // ----- Handles are never reissued -----

  lemma LiveIsIssued<T>(t: Table<T>, h: Handle)
    requires Consistent(t) && t.Has(h)
    ensures Issued(t, h)
  {
  }

  /** An insertion keeps the table consistent and returns a handle never issued before. */
  lemma InsertFacts<T>(t: Table<T>, value: T)
    requires Consistent(t)
    ensures Consistent(Insert(t, value))
    ensures !Issued(t, NextHandle(t)) && Issued(Insert(t, value), NextHandle(t))
    ensures forall h :: Issued(t, h) ==> Issued(Insert(t, value), h)
  {
    var t', h := Insert(t, value), NextHandle(t);
    if t.free != [] {
      assert h.index == t.free[|t.free| - 1];
      assert h.index in t.free;
      assert !t.Has(Handle(h.index, t.generations[h.index]));
      forall i | 0 <= i < |t'.generations|
        ensures i in t'.free <==> !t'.Has(Handle(i, t'.generations[i]))
      {
        if i == h.index {
          assert i !in t'.free;
        } else {
          assert i in t.free <==> i in t'.free by {
            assert t.free == t'.free + [h.index];
          }
        }
      }
    }
  }

  lemma RemoveFacts<T>(t: Table<T>, h: Handle)
    requires Consistent(t)
    ensures Consistent(Remove(t, h))
    ensures forall g :: Issued(t, g) <==> Issued(Remove(t, h), g)
  {
    var t' := Remove(t, h);
    if t.Has(h) {
      assert h.index !in t.free by {
        assert Handle(h.index, t.generations[h.index]) == h;
      }
      forall i | 0 <= i < |t'.generations|
        ensures i in t'.free <==> !t'.Has(Handle(i, t'.generations[i]))
      {
        assert i in t.free <==> !t.Has(Handle(i, t.generations[i]));
      }
    }
  }

  /** One mutation of an arena. */
  datatype TableOp<T> = InsertOp(value: T) | RemoveOp(handle: Handle) | UpdateOp(handle: Handle, value: T)

  ghost function Apply<T>(t: Table<T>, op: TableOp<T>): Table<T>
    requires Consistent(t)
  {
    match op
    case InsertOp(v) => Insert(t, v)
    case RemoveOp(h) => Remove(t, h)
    case UpdateOp(h, v) => if t.Has(h) then Update(t, h, v) else t
  }

  lemma ApplyFacts<T>(t: Table<T>, op: TableOp<T>)
    requires Consistent(t)
    ensures Consistent(Apply(t, op))
    ensures forall h :: Issued(t, h) ==> Issued(Apply(t, op), h)
    ensures forall h :: Issued(t, h) && !t.Has(h) ==> !Apply(t, op).Has(h)
  {
    match op
    case InsertOp(v) => InsertFacts(t, v);
    case RemoveOp(h) => RemoveFacts(t, h);
    case UpdateOp(h, v) =>
  }

  ghost function ApplyAll<T>(t: Table<T>, ops: seq<TableOp<T>>): Table<T>
    requires Consistent(t)
    decreases |ops|
  {
    if ops == [] then t
    else ApplyFacts(t, ops[0]); ApplyAll(Apply(t, ops[0]), ops[1..])
  }

  /** Once a handle is stale it stays stale, and it is never issued again:
      whatever is done to the arena afterwards, no later insertion returns it. */
  lemma {:induction false} StaleForever<T>(t: Table<T>, ops: seq<TableOp<T>>, h: Handle)
    requires Consistent(t) && Issued(t, h) && !t.Has(h)
    ensures Consistent(ApplyAll(t, ops))
    ensures !ApplyAll(t, ops).Has(h)
    ensures NextHandle(ApplyAll(t, ops)) != h
    decreases |ops|
  {
    if ops != [] {
      ApplyFacts(t, ops[0]);
      StaleForever(Apply(t, ops[0]), ops[1..], h);
    }
  }

  // ----- The arena object -----

  datatype Entry<T> = Entry(value: Option<T>, generation: nat)

  ghost predicate Resolves<T>(entries: seq<Entry<T>>, h: Handle) {
    h.index < |entries| && h.generation == entries[h.index].generation && entries[h.index].value.Some?
  }

  /** The slots and the free stack hold exactly what the table says. */
  ghost predicate Represents<T>(t: Table<T>, entries: seq<Entry<T>>, free: seq<nat>) {
    && |t.generations| == |entries|
    && (forall i :: 0 <= i < |entries| ==> t.generations[i] == entries[i].generation)
    && (forall h :: h in t.live <==> Resolves(entries, h))
    && (forall h :: h in t.live ==> entries[h.index].value == Some(t.live[h]))
    && t.free == free
  }

  lemma RepresentsReused<T>(t: Table<T>, entries: seq<Entry<T>>, free: seq<nat>, value: T)
    requires Consistent(t) && Represents(t, entries, free) && free != []
    ensures var h := NextHandle(t);
            && h.index < |entries|
            && Represents(Insert(t, value), entries[h.index := Entry(Some(value), h.generation)], free[..|free| - 1])
  {
    var h := NextHandle(t);
    var after := entries[h.index := Entry(Some(value), h.generation)];
    assert free[|free| - 1] in t.free;
    assert forall g :: Resolves(after, g) <==> Resolves(entries, g) || g == h;
  }

  lemma RepresentsGrown<T>(t: Table<T>, entries: seq<Entry<T>>, value: T)
    requires Consistent(t) && Represents(t, entries, [])
    ensures Represents(Insert(t, value), entries + [Entry(Some(value), 0)], [])
  {
    var after := entries + [Entry(Some(value), 0)];
    assert forall g :: Resolves(after, g) <==> Resolves(entries, g) || g == NextHandle(t);
  }

  lemma RepresentsCleared<T>(t: Table<T>, entries: seq<Entry<T>>, free: seq<nat>, h: Handle)
    requires Represents(t, entries, free) && Resolves(entries, h)
    ensures Represents(Remove(t, h), entries[h.index := Entry(None, h.generation)], free + [h.index])
  {
    var after := entries[h.index := Entry(None, h.generation)];
    assert forall g :: Resolves(after, g) <==> Resolves(entries, g) && g != h;
  }

  lemma RepresentsWritten<T>(t: Table<T>, entries: seq<Entry<T>>, free: seq<nat>, h: Handle, value: T)
    requires Represents(t, entries, free) && t.Has(h)
    ensures Resolves(entries, h)
    ensures Represents(Update(t, h, value), entries[h.index := Entry(Some(value), h.generation)], free)
  {
    var after := entries[h.index := Entry(Some(value), h.generation)];
    assert forall g :: Resolves(after, g) <==> Resolves(entries, g);
  }

  lemma SameSlotCount<T>(t: Table<T>, entries: seq<Entry<T>>, free: seq<nat>)
    requires Represents(t, entries, free)
    ensures |t.generations| == |entries|
  {
  }

  lemma SlotIsLive<T>(t: Table<T>, entries: seq<Entry<T>>, free: seq<nat>, i: nat)
    requires Represents(t, entries, free) && i < |entries|
    ensures i < |t.generations| && t.generations[i] == entries[i].generation
    ensures Handle(i, t.generations[i]) in t.live.Keys <==> entries[i].value.Some?
  {
  }

  class Arena<T> {
    var entries: seq<Entry<T>>
    var free: seq<nat>
    var len: nat

    /** The value of the arena, kept in step with the fields. */
    ghost var model: Table<T>

    ghost predicate Valid()
      reads this
    {
      && Represents(model, entries, free)
      && Consistent(model)
      && len + |free| == |entries|
    }

    constructor ()
      ensures Valid() && model == Empty()
    {
      entries, free, len := [], [], 0;
      model := Empty();
    }

    method Add(value: T) returns (h: Handle)
      requires Valid()
      modifies this
      ensures Valid()
      ensures h == NextHandle(old(model)) && model == Insert(old(model), value)
    {
      InsertFacts(model, value);
      len := len + 1;
      if free != [] {
        RepresentsReused(model, entries, free, value);
        var i := free[|free| - 1];
        h := Handle(i, entries[i].generation + 1);
        free := free[..|free| - 1];
        entries := entries[i := Entry(Some(value), h.generation)];
      } else {
        RepresentsGrown(model, entries, value);
        h := Handle(|entries|, 0);
        entries := entries + [Entry(Some(value), 0)];
      }
      model := Insert(model, value);
    }

    method Delete(h: Handle) returns (removed: Option<T>)
      requires Valid()
      modifies this
      ensures Valid()
      ensures removed == old(model).Get(h) && model == Remove(old(model), h)
    {
      RemoveFacts(model, h);
      if h.index >= |entries| || entries[h.index].generation != h.generation || entries[h.index].value.None? {
        return None;
      }
      removed := entries[h.index].value;
      RepresentsCleared(model, entries, free, h);
      LiveAndFree(model);
      assert h in model.live;
      len := len - 1;
      free := free + [h.index];
      entries := entries[h.index := Entry(None, h.generation)];
      model := Remove(model, h);
    }

    method Find(h: Handle) returns (value: Option<T>)
      requires Valid()
      ensures value == model.Get(h)
    {
      if h.index >= |entries| || entries[h.index].generation != h.generation {
        return None;
      }
      return entries[h.index].value;
    }

    /** Writing through the reference that `get_mut` returns. */
    method Write(h: Handle, value: T)
      requires Valid() && model.Has(h)
      modifies this
      ensures Valid() && model == Update(old(model), h, value)
    {
      RepresentsWritten(model, entries, free, h, value);
      entries := entries[h.index := Entry(Some(value), h.generation)];
      model := Update(model, h, value);
    }

    /** The number of live handles. */
    method Count() returns (count: nat)
      requires Valid()
      ensures count == |model.live|
    {
      LiveAndFree(model);
      count := len;
    }

    /** The handles an iteration visits, in order. */
    method Handles() returns (handles: seq<Handle>)
      requires Valid()
      ensures handles == Order(model)
      ensures NoDuplicates(handles) && forall h :: h in handles <==> model.Has(h)
    {
      hide Represents, Consistent;
      OrderFacts(model);
      SameSlotCount(model, entries, free);
      handles := [];
      for i := 0 to |entries|
        invariant handles == OrderUpTo(model.live.Keys, model.generations, i)
      {
        SlotIsLive(model, entries, free, i);
        if entries[i].value.Some? {
          handles := handles + [Handle(i, entries[i].generation)];
        }
      }
    }
  }
}
