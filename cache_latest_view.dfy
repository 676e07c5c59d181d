/** cache_latest_view, its iterator and its sentinel, for a base whose
    elements are values (the branch at lines 123-128 of cache_latest.hpp).
    The view owns the base and one non-propagating cache; the iterator holds
    a reference to its view and a cursor into the base. Each operation is
    proved to perform the matching step of module CacheLatestSpec. */
module CacheLatest {
  import opened NonPropagating
  import opened CacheLatestSpec

  class View<X> {
    /** base_: the wrapped sequence. */
    var base: seq<X>
    /** cache_: the view's one cache slot. */
    const cache: Cache<X>
    /** Production steps (dereferences of the base cursor) run through this view. */
    ghost var calls: nat

    /** Default construction: the base is V(), taken here to be empty. */
    constructor Default()
      ensures base == [] && fresh(cache) && cache.slot.None? && calls == 0
    {
      base := [];
      cache := new Cache();
      calls := 0;
    }

    /** cache_latest_view(base): takes the base, the cache starts empty. */
    constructor (base: seq<X>)
      ensures this.base == base && fresh(cache) && cache.slot.None? && calls == 0
    {
      this.base := base;
      cache := new Cache();
      calls := 0;
    }

    /** Implicit copy construction: the base is copied, the cache is not. */
    constructor CopyOf(other: View<X>)
      ensures base == other.base && fresh(cache) && cache.slot.None? && calls == 0
      ensures other.cache.slot == old(other.cache.slot)
    {
      base := other.base;
      cache := new Cache.CopyOf(other.cache);
      calls := 0;
    }

    /** Implicit move construction: the base is taken, and both the new and
        the moved-from cache are empty. The moved-from base is unspecified. */
    constructor MoveOf(other: View<X>)
      modifies other`base, other.cache
      ensures base == old(other.base) && fresh(cache) && cache.slot.None? && calls == 0
      ensures other.cache.slot.None?
    {
      base := other.base;
      cache := new Cache.MoveOf(other.cache);
      calls := 0;
    }

    /** Implicit copy assignment: the base is copied, the destination cache is
        reset and the source's cache is left as it was. */
    method CopyAssign(other: View<X>)
      requires other.cache == cache ==> other == this
      modifies this, cache
      ensures base == old(other.base) && cache.slot.None? && calls == old(calls)
      ensures other != this ==> other.cache.slot == old(other.cache.slot)
    {
      base := other.base;
      cache.CopyAssign(other.cache);
    }

    /** Implicit move assignment: the base is taken and both caches are reset.
        The moved-from base is unspecified, and so is the base after a
        self-move. */
    method MoveAssign(other: View<X>)
      requires other.cache == cache ==> other == this
      modifies this, cache, other`base, other.cache
      ensures other != this ==> base == old(other.base)
      ensures cache.slot.None? && calls == old(calls)
      ensures other.cache.slot.None?
    {
      base := other.base;
      cache.MoveAssign(other.cache);
    }

    /** base(): the wrapped sequence. */
    function Base(): (b: seq<X>)
      reads this
      ensures b == base
    {
      base
    }

    /** begin(): an iterator at the base's first position; the cache is not
        touched. */
    method Begin() returns (it: Iterator<X>)
      ensures fresh(it) && it.parent == this
      ensures it.State() == IterState(0, cache.slot, calls)
    {
      it := new Iterator(this);
    }

    /** end(): a sentinel holding the base's end at call time. */
    function End(): (e: Sentinel)
      reads this
      ensures e == EndOf(base)
      ensures e.Matches(|base|)
    {
      EndOf(base)
    }

    /** size(): forwards the base's size. */
    function Size(): (n: nat)
      reads this
      ensures n == |base|
      ensures End().Matches(n)
    {
      |base|
    }

    /** The base's production step: dereferencing the base cursor at i. */
    method Produce(i: nat) returns (x: X)
      requires i < |base|
      modifies this`calls
      ensures x == base[i] && calls == old(calls) + 1
    {
      x := base[i];
      calls := calls + 1;
    }
  }

  class Iterator<X> {
    /** parent_: the view iterated over. */
    const parent: View<X>
    /** current_: the base cursor, a position in parent.base. */
    var current: nat

    /** iterator(parent): cursor at the beginning of the parent's base. */
    constructor (parent: View<X>)
      ensures this.parent == parent && current == 0
    {
      this.parent := parent;
      current := 0;
    }

    /** The cursor, the parent's cache slot and its production count. */
    ghost function State(): IterState<X>
      reads this, parent, parent.cache
    {
      IterState(current, parent.cache.slot, parent.calls)
    }

    /** base(): the base cursor. */
    function Base(): (p: nat)
      reads this
      ensures p == current
    {
      current
    }

    /** operator*: on an empty cache emplace the element produced at the
        cursor, otherwise return the cached element. */
    method Deref() returns (x: X)
      requires current < |parent.base|
      modifies parent`calls, parent.cache
      ensures (x, State()) == DerefStep(parent.base, old(State()))
    {
      if !parent.cache.HasValue() {
        var y := parent.Produce(current);
        x := parent.cache.Emplace(y);
      } else {
        var held := parent.cache.Value();
        x := held.value;
      }
    }

    /** Prefix operator++: advance the cursor, then reset the cache. */
    method Advance()
      requires current < |parent.base|
      modifies this`current, parent.cache
      ensures State() == AdvanceStep(parent.base, old(State()))
    {
      current := current + 1;
      parent.cache.Reset();
    }

    /** Postfix operator++: the same as the prefix form. */
    method PostAdvance()
      requires current < |parent.base|
      modifies this`current, parent.cache
      ensures State() == AdvanceStep(parent.base, old(State()))
    {
      Advance();
    }

    /** iterator == sentinel: true iff the cursor is the captured end. */
    function AtSentinel(e: Sentinel): (r: bool)
      reads this
      ensures r <==> current == e.Base()
    {
      e.Matches(current)
    }
  }

  /** A consumer of a fresh view: begin(), then dereference and advance
      until the iterator equals end(). It sees the base's elements in order,
      with one production step per element. */
  method Drain<X>(v: View<X>) returns (xs: seq<X>)
    requires v.cache.slot.None?
    modifies v`calls, v.cache
    ensures xs == v.base && v.calls == old(v.calls) + |v.base| && v.cache.slot.None?
  {
    var it := v.Begin();
    var e := v.End();
    xs := [];
    while !it.AtSentinel(e)
      invariant fresh(it) && it.parent == v && e == EndOf(v.base)
      invariant it.current <= |v.base|
      invariant xs == v.base[..it.current]
      invariant v.calls == old(v.calls) + it.current && v.cache.slot.None?
      decreases |v.base| - it.current
    {
      var x := it.Deref();
      xs := xs + [x];
      it.Advance();
    }
  }
}
