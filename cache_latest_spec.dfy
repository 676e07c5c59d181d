/** The iteration protocol of cache_latest_view as a pure state machine.
    A base sequence is a seq<X>; its production step (dereferencing the base
    cursor) yields base[pos] and is counted in `calls`. One view with one
    live iterator is described by the cursor, the view's cache slot and the
    number of production steps run so far. The classes in module CacheLatest
    are proved to perform exactly these steps. */
module CacheLatestSpec {
  import opened NonPropagating

  /** Cursor position, the view's cache slot, and production steps run. */
  datatype IterState<C> = IterState(pos: nat, slot: Option<C>, calls: nat)

  /** The end marker captured by end(): the base's end as a position. */
  datatype Sentinel = Sentinel(end: nat) {
    /** iterator == sentinel compares the cursor with the captured end. */
    predicate Matches(pos: nat) {
      pos == end
    }

    /** sentinel::base(): the position this sentinel matches. */
    function Base(): (p: nat)
      ensures Matches(p)
      ensures forall q: nat :: Matches(q) ==> q == p
    {
      end
    }
  }

  /** end(): a sentinel for the end of `base`, captured at call time. */
  function EndOf<X>(base: seq<X>): (e: Sentinel)
    ensures e.Matches(|base|)
    ensures forall p: nat :: p < |base| ==> !e.Matches(p)
  {
    Sentinel(|base|)
  }

  /** A value-branch state is coherent when whatever the slot holds is the
      element at the cursor. */
  ghost predicate Coherent<X>(base: seq<X>, s: IterState<X>) {
    s.slot.Some? ==> s.pos < |base| && s.slot.value == base[s.pos]
  }

  /** Value-branch operator*: on an empty slot run the production step and
      emplace its result; otherwise return the slot without recomputing. */
  function DerefStep<X>(base: seq<X>, s: IterState<X>): (r: (X, IterState<X>))
    requires s.pos < |base|
    ensures r.1.pos == s.pos && r.1.slot == Some(r.0)
    ensures r.1.calls == if s.slot.None? then s.calls + 1 else s.calls
    ensures Coherent(base, s) ==> r.0 == base[s.pos] && Coherent(base, r.1)
  {
    match s.slot
    case None => (base[s.pos], IterState(s.pos, Some(base[s.pos]), s.calls + 1))
    case Some(x) => (x, s)
  }

  /** operator++: advance the base cursor by one, then reset the cache. */
  function AdvanceStep<X>(base: seq<X>, s: IterState<X>): (r: IterState<X>)
    requires s.pos < |base|
    ensures r.pos == s.pos + 1 && r.pos <= |base|
    ensures r.slot.None? && r.calls == s.calls
    ensures Coherent(base, r)
  {
    IterState(s.pos + 1, None, s.calls)
  }

  /** n successive dereferences without advancing, with the values returned. */
  function DerefTimes<X>(base: seq<X>, s: IterState<X>, n: nat): (seq<X>, IterState<X>)
    requires s.pos < |base|
    decreases n
  {
    if n == 0 then ([], s)
    else
      var (x, s1) := DerefStep(base, s);
      var (xs, t) := DerefTimes(base, s1, n - 1);
      ([x] + xs, t)
  }

  /** Dereferencing a populated slot any number of times returns the held
      value every time and changes nothing. */
  lemma {:induction false} DerefTimesOnPopulated<X>(base: seq<X>, s: IterState<X>, n: nat)
    requires s.pos < |base| && s.slot.Some?
    ensures DerefTimes(base, s, n).1 == s
    ensures |DerefTimes(base, s, n).0| == n
    ensures forall i :: 0 <= i < n ==> DerefTimes(base, s, n).0[i] == s.slot.value
  {
    if n > 0 {
      DerefTimesOnPopulated(base, s, n - 1);
    }
  }

  /** At-most-once: N >= 1 dereferences at one position run the production
      step exactly once if the slot was empty (never if it was populated),
      and every dereference returns the same value, the element at the
      cursor when the state is coherent. */
  lemma RepeatedDerefComputesOnce<X>(base: seq<X>, s: IterState<X>, n: nat)
    requires s.pos < |base| && n >= 1
    ensures var (xs, t) := DerefTimes(base, s, n);
      |xs| == n &&
      (forall i :: 0 <= i < n ==> xs[i] == xs[0]) &&
      t.pos == s.pos && t.slot == Some(xs[0]) &&
      t.calls == (if s.slot.None? then s.calls + 1 else s.calls) &&
      (Coherent(base, s) ==> xs[0] == base[s.pos])
  {
    var (x, s1) := DerefStep(base, s);
    DerefTimesOnPopulated(base, s1, n - 1);
  }

  /** Straight-through iteration: dereference once, advance, until the
      cursor matches the sentinel of the base's end. */
  function Traverse<X>(base: seq<X>, s: IterState<X>): (seq<X>, IterState<X>)
    requires s.pos <= |base|
    decreases |base| - s.pos
  {
    if EndOf(base).Matches(s.pos) then ([], s)
    else
      var (x, s1) := DerefStep(base, s);
      var (xs, t) := Traverse(base, AdvanceStep(base, s1));
      ([x] + xs, t)
  }

  /** From an empty slot, straight-through iteration yields the remaining
      base elements in order, one production step per element, and ends at
      the sentinel with an empty cache. */
  lemma {:induction false} TraverseYieldsRest<X>(base: seq<X>, s: IterState<X>)
    requires s.pos <= |base| && s.slot.None?
    ensures var (xs, t) := Traverse(base, s);
      xs == base[s.pos..] &&
      t.pos == |base| && EndOf(base).Matches(t.pos) && t.slot.None? &&
      t.calls == s.calls + (|base| - s.pos)
    decreases |base| - s.pos
  {
    if s.pos < |base| {
      var (x, s1) := DerefStep(base, s);
      var s2 := AdvanceStep(base, s1);
      TraverseYieldsRest(base, s2);
      assert base[s.pos..] == [base[s.pos]] + base[s.pos + 1..];
    }
  }

  /** Iterating a freshly begun view (cursor at the start, cache empty)
      yields exactly the base, with |base| production steps. */
  lemma StraightThroughEqualsBase<X>(base: seq<X>, calls: nat)
    ensures var (xs, t) := Traverse(base, IterState(0, None, calls));
      xs == base && |xs| == |base| && t.calls == calls + |base|
  {
    TraverseYieldsRest(base, IterState(0, None, calls));
  }

  /** k advances without dereferencing. */
  function AdvanceTimes<X>(base: seq<X>, s: IterState<X>, k: nat): IterState<X>
    requires s.pos + k <= |base|
    decreases k
  {
    if k == 0 then s else AdvanceTimes(base, AdvanceStep(base, s), k - 1)
  }

  /** k advances move the cursor by exactly k, run no production step and,
      when k > 0, leave the cache empty. */
  lemma {:induction false} AdvanceTimesMoves<X>(base: seq<X>, s: IterState<X>, k: nat)
    requires s.pos + k <= |base|
    ensures AdvanceTimes(base, s, k).pos == s.pos + k
    ensures AdvanceTimes(base, s, k).calls == s.calls
    ensures k > 0 ==> AdvanceTimes(base, s, k).slot.None?
    decreases k
  {
    if k > 0 {
      AdvanceTimesMoves(base, AdvanceStep(base, s), k - 1);
    }
  }

  /** From begin(), the iterator equals end() after exactly |base| advances
      and after no fewer; for an empty base, begin() == end() at once. */
  lemma LengthAdvancesReachEnd<X>(base: seq<X>, s: IterState<X>, k: nat)
    requires s.pos == 0 && k <= |base|
    ensures EndOf(base).Matches(AdvanceTimes(base, s, k).pos) <==> k == |base|
  {
    AdvanceTimesMoves(base, s, k);
  }

  // ----- Reference branch (lines 118-122) -----
  // When the base yields references, the cache is meant to hold the address
  // of the element at the cursor, here its position in the base's storage.

  /** Line 120 as written: the address is assigned into the cache. The only
      assignment operators (lines 26-35) reset the destination and store
      nothing, so the slot stays empty; line 122 then dereferences it. The
      first component is None when the slot is empty at line 122, where the
      dereference is undefined. */
  function RefDerefAsWritten<X>(base: seq<X>, s: IterState<nat>): (r: (Option<X>, IterState<nat>))
    requires s.pos < |base|
    ensures r.1.slot == s.slot && r.1.pos == s.pos
    ensures r.0.Some? ==> s.slot.Some?
    ensures r.1.calls == if s.slot.None? then s.calls + 1 else s.calls
  {
    var s1: IterState<nat> := if s.slot.None? then IterState(s.pos, None, s.calls + 1) else s;
    match s1.slot
    case None => (None, s1)
    case Some(a) => (if a < |base| then Some(base[a]) else None, s1)
  }

  /** As written, a dereference never populates an empty cache: it evaluates
      the base element every time and then reads an empty slot. Two
      dereferences at one position run the production step twice. */
  lemma RefAsWrittenNeverCaches<X>(base: seq<X>, s: IterState<nat>)
    requires s.pos < |base| && s.slot.None?
    ensures var (v1, s1) := RefDerefAsWritten(base, s);
      v1.None? && s1.slot.None? &&
      var (v2, s2) := RefDerefAsWritten(base, s1);
      v2.None? && s2.slot.None? && s2.calls == s.calls + 2
  {
  }

  predicate RefCoherent(s: IterState<nat>) {
    s.slot.Some? ==> s.slot.value == s.pos
  }

  /** Reference branch as intended: on an empty slot store the address of
      the element at the cursor; return the stored address. */
  function RefDeref<X>(base: seq<X>, s: IterState<nat>): (r: (nat, IterState<nat>))
    requires s.pos < |base|
    ensures r.1.pos == s.pos && r.1.slot == Some(r.0)
    ensures r.1.calls == if s.slot.None? then s.calls + 1 else s.calls
    ensures RefCoherent(s) ==> r.0 == s.pos && RefCoherent(r.1)
  {
    match s.slot
    case None => (s.pos, IterState(s.pos, Some(s.pos), s.calls + 1))
    case Some(a) => (a, s)
  }

  /** As intended, two dereferences at one position refer to the same
      storage (the base element at the cursor) and the second runs no
      production step. */
  lemma RefDerefAliases<X>(base: seq<X>, s: IterState<nat>)
    requires s.pos < |base| && s.slot.None?
    ensures var (a1, s1) := RefDeref(base, s);
      var (a2, s2) := RefDeref(base, s1);
      a1 == a2 == s.pos && a1 < |base| && s2 == s1 && s2.calls == s.calls + 1
  {
  }
}
