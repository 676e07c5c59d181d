# cache_latest in Dafny

A model of `beman::cache_latest_view`, a range adaptor that wraps a base input
range and remembers the element at the current position. Dereferencing an
iterator computes the element once, stores it in the view's cache and returns
the stored copy on later dereferences. Advancing the iterator resets the
cache. The cache itself is a `non_propagating_cache`: a single-slot optional
whose copy and move operations never carry the value across.

Files:

- `non_propagating_cache.dfy`, module `NonPropagating`: class `Cache<T>`.
  Its `slot: Option<T>` field is the wrapped `std::optional`. There is one
  constructor or method per special member and per operation.
- `cache_latest_spec.dfy`, module `CacheLatestSpec`: the iteration protocol
  as a pure state machine. `IterState` holds the cursor position, the view's
  cache slot and `calls`, the number of production steps run. A production
  step is a dereference of the base cursor. `DerefStep` and `AdvanceStep` are
  single steps. The lemmas state at-most-once production, in-order traversal
  and reaching the end. This module also holds the reference-element branch
  (see Findings).
- `cache_latest_view.dfy`, module `CacheLatest`: classes `View<X>` and
  `Iterator<X>`. The view owns a `seq<X>` base and one `Cache<X>`. The
  iterator holds a reference to its view and a `nat` cursor. The end of the
  base is position `|base|`. `Iterator.Deref` and `Iterator.Advance` are
  proved to leave the iterator's `State()` equal to `DerefStep` and
  `AdvanceStep` of the old state. So the lemmas of `CacheLatestSpec` hold for
  successive `Deref` and `Advance` calls on one iterator, as long as no
  other operation touches its view in between. A second iterator over the
  same view, or an assignment to the view, breaks that chain. `Drain` is a
  consumer that iterates a fresh view straight through and is proved to see
  the base in order.

The production step is modelled as reading `base[i]` through `View.Produce`,
which increments the ghost counter `View.calls`. The element type decides
between a stored address and a stored value at compile time. The classes model
the value branch (lines 123-128).

## Model

| member | source | states |
|---|---|---|
| NonPropagating.Cache.constructor | include/beman/cache_latest/cache_latest.hpp:22 | a default-constructed cache is empty |
| NonPropagating.Cache.CopyOf | include/beman/cache_latest/cache_latest.hpp:23 | copy construction yields an empty cache and leaves the source's slot unchanged |
| NonPropagating.Cache.MoveOf | include/beman/cache_latest/cache_latest.hpp:24 | move construction yields an empty cache and empties the source, whatever it held |
| NonPropagating.Cache.CopyAssign | include/beman/cache_latest/cache_latest.hpp:26-29 | copy assignment empties the destination, transfers nothing, and leaves a distinct source unchanged |
| NonPropagating.Cache.MoveAssign | include/beman/cache_latest/cache_latest.hpp:31-35 | move assignment empties both destination and source, including when both are the same object |
| NonPropagating.Cache.Star | include/beman/cache_latest/cache_latest.hpp:37 | operator* on a populated cache gives the held value; an empty cache is outside its contract |
| NonPropagating.Cache.HasValue | include/beman/cache_latest/cache_latest.hpp:39 | true exactly when a value is held |
| NonPropagating.Cache.Value | include/beman/cache_latest/cache_latest.hpp:41 | returns the held value when there is one, and bad_optional_access exactly when the cache is empty |
| NonPropagating.Cache.Emplace | include/beman/cache_latest/cache_latest.hpp:43-46 | after emplace(x) the cache holds x, replacing any earlier value, and value() returns x |
| NonPropagating.Cache.Reset | include/beman/cache_latest/cache_latest.hpp:48 | after reset the cache is empty; resetting an empty cache changes nothing |
| CacheLatestSpec.Sentinel.Base | include/beman/cache_latest/cache_latest.hpp:165 | the sentinel's base is the one position it compares equal to |
| CacheLatestSpec.EndOf | include/beman/cache_latest/cache_latest.hpp:157 | the sentinel captured from a base matches its end position and no position before it |
| CacheLatestSpec.DerefStep | include/beman/cache_latest/cache_latest.hpp:123-128 | a dereference leaves the returned value in the cache and keeps the cursor. It runs the production step exactly when the cache was empty. From a coherent state it returns the element at the cursor and stays coherent |
| CacheLatestSpec.AdvanceStep | include/beman/cache_latest/cache_latest.hpp:131-135 | an advance moves the cursor forward by exactly one, leaves the cache empty and runs no production step |
| CacheLatestSpec.DerefTimesOnPopulated | include/beman/cache_latest/cache_latest.hpp:126-127 | any number of dereferences of a populated cache return the held value every time and change no state |
| CacheLatestSpec.RepeatedDerefComputesOnce | include/beman/cache_latest/cache_latest.hpp:123-128 | N >= 1 dereferences at one position run production exactly once from an empty cache and never from a populated one. All N return the same value, which is the element at the cursor when the state is coherent |
| CacheLatestSpec.TraverseYieldsRest | include/beman/cache_latest/cache_latest.hpp:124-135 | dereferencing then advancing until the sentinel matches yields the remaining base elements in order, with one production step per element. It ends at the end position with an empty cache |
| CacheLatestSpec.StraightThroughEqualsBase | include/beman/cache_latest/cache_latest.hpp:101-102 | iterating from begin() with an empty cache yields exactly the base sequence, with as many production steps as elements |
| CacheLatestSpec.AdvanceTimesMoves | include/beman/cache_latest/cache_latest.hpp:131-135 | k advances move the cursor by exactly k and run no production step. When k > 0 they leave the cache empty |
| CacheLatestSpec.LengthAdvancesReachEnd | include/beman/cache_latest/cache_latest.hpp:167 | from begin(), the iterator equals end() after exactly length-of-base advances and after no fewer; an empty base gives begin() == end() |
| CacheLatestSpec.RefDerefAsWritten | include/beman/cache_latest/cache_latest.hpp:118-122 | as written, a reference-branch dereference never changes the slot. It evaluates the base element whenever the slot is empty and finds a value only in a slot that was already populated |
| CacheLatestSpec.RefAsWrittenNeverCaches | include/beman/cache_latest/cache_latest.hpp:120 | as written, two dereferences at one position from an empty cache both find the slot empty and run the production step twice |
| CacheLatestSpec.RefDeref | include/beman/cache_latest/cache_latest.hpp:118-122 | as intended, a reference-branch dereference leaves the returned address in the cache and runs production only on an empty cache. From a coherent state it returns the address of the element at the cursor |
| CacheLatestSpec.RefDerefAliases | include/beman/cache_latest/cache_latest.hpp:118-122 | as intended, two dereferences at one position return the same storage location, the element at the cursor, with one production step |
| CacheLatest.View.Default | include/beman/cache_latest/cache_latest.hpp:65-67 | a default-constructed view has an empty cache; its base V() is taken to be empty |
| CacheLatest.View.constructor | include/beman/cache_latest/cache_latest.hpp:68 | the view takes the given base, and its cache starts empty |
| CacheLatest.View.CopyOf | include/beman/cache_latest/cache_latest.hpp:53-59 | copying a view copies the base, never the cached element. The source's cache is untouched |
| CacheLatest.View.MoveOf | include/beman/cache_latest/cache_latest.hpp:54-59 | moving a view takes the base and leaves both the new and the moved-from caches empty. It promises nothing about the moved-from base |
| CacheLatest.View.CopyAssign | include/beman/cache_latest/cache_latest.hpp:54-59 | copy-assigning a view copies the base and empties the destination's cache. A distinct source's cache is untouched |
| CacheLatest.View.MoveAssign | include/beman/cache_latest/cache_latest.hpp:53-59 | move-assigning a distinct view takes its base. Both caches end up empty, self-move included. It promises nothing about the moved-from base or about the base after a self-move |
| CacheLatest.View.Base | include/beman/cache_latest/cache_latest.hpp:70-75 | base() returns the wrapped sequence |
| CacheLatest.View.Begin | include/beman/cache_latest/cache_latest.hpp:77 | begin() returns a new iterator over this view at the first position and leaves the cache and the production count as they were |
| CacheLatest.View.End | include/beman/cache_latest/cache_latest.hpp:78 | end() returns a sentinel that matches the base's end position as it is at the call |
| CacheLatest.View.Size | include/beman/cache_latest/cache_latest.hpp:80-89 | size() equals the base's length, which is the position end() matches |
| CacheLatest.View.Produce | include/beman/cache_latest/cache_latest.hpp:125 | the base's production step yields the element at the cursor and counts one step |
| CacheLatest.Iterator.constructor | include/beman/cache_latest/cache_latest.hpp:101-102 | a new iterator refers to the given view, with its cursor at the first position |
| CacheLatest.Iterator.Base | include/beman/cache_latest/cache_latest.hpp:114-115 | base() returns the cursor |
| CacheLatest.Iterator.Deref | include/beman/cache_latest/cache_latest.hpp:117-129 | operator* performs exactly DerefStep on the cursor, the view's cache and the production count |
| CacheLatest.Iterator.Advance | include/beman/cache_latest/cache_latest.hpp:131-135 | prefix ++ performs exactly AdvanceStep. The base is not changed |
| CacheLatest.Iterator.PostAdvance | include/beman/cache_latest/cache_latest.hpp:137 | postfix ++ has the same effect as prefix ++ |
| CacheLatest.Iterator.AtSentinel | include/beman/cache_latest/cache_latest.hpp:167 | iterator == sentinel holds iff the cursor is the sentinel's captured end |
| CacheLatest.Drain | include/beman/cache_latest/cache_latest.hpp:124-135 | iterating a view with an empty cache from begin() to end(), dereferencing then advancing, yields the base in order. It runs one production step per element and leaves the cache empty |

## Left out

- The pipe and adaptor-closure machinery (`__cache_latest`, `views::cache_latest`) and the deduction guide, lines 92-93 and 170-198. They only forward to the view's constructor.
- `iter_move` and `iter_swap`, lines 139-149. They only forward to the base iterator's library operations.
- Concepts, `requires` constraints and the C++23 version check. These are compile-time capability checks. The `conditional_t` choice of `cache_t` is not a runtime flag: the classes model the value branch. The reference branch is modelled only as the functions in `CacheLatestSpec` described under Findings.
- The iterator's defaulted move constructor and move assignment, lines 111-112. The model gives the iterator no copy or move operation.
- The defaulted sentinel constructor, line 163. A value-initialised base sentinel has no position counterpart.
- CacheLatest.View.Base: the rvalue overload (line 75) moves the base out. The model returns the same sequence and does not model the moved-from state of the view.
- CacheLatest.View.Default: the base is V(), which depends on V. The model takes it to be empty, as for an owning view of an empty vector. A default `single_view` holds one element, and a `seq` base cannot represent an unbounded base such as a default `iota_view`.
- CacheLatest.View.MoveOf: the moved-from view's base is valid but unspecified. It is in the frame, and the contract says nothing about it.
- CacheLatest.View.MoveAssign: the moved-from view's base is valid but unspecified. It is in the frame, and the contract says nothing about it. This includes a self-move, after which the contract says nothing about the view's base.
- NonPropagating.Cache.Emplace: takes one value already built, not the variadic constructor arguments of `emplace(Args&&...)`.
- The `return *this` of the assignment operators (lines 28 and 34) and of prefix `operator++` (line 134) is dropped. The methods return nothing, so chained expressions are not modelled.
- CacheLatest.View.CopyAssign: requires that two distinct views do not share a cache object. In C++ this holds by construction because `cache_` is a member.
- CacheLatest.Iterator.Base: both overloads return the cursor. The model does not distinguish a move from a copy of it.
- NonPropagating.Cache.Star: line 37 declares the return type `T*` but returns `*t_`, a `T` lvalue. That is ill-typed for any `T` once it is instantiated, and only the reference branch (line 122) uses it. The model returns the held value.
- NonPropagating.Cache.Value, NonPropagating.Cache.Emplace and CacheLatest.Iterator.Deref: they return references in C++ and values in the model. Aliasing between a returned reference and the cache slot is not modelled.
- Dereferencing or advancing at the end, and `operator*` on an empty cache, are undefined behaviour in the source. The model states them as preconditions.
- begin() does not reset the cache. Calling it again on a view whose cache is populated gives an iterator whose first dereference returns the stale element. The model keeps this behaviour, so "returns the element at the cursor" is stated for coherent states.
- Several live iterators over one view share the one cache slot. The source leaves this undefined and the model does not forbid it.
- infra/tools/beman-tidy/tests/utils/path_runners.py is not part of this model. It is a linter test harness that performs file I/O.

## Findings

| source | as written | input that shows it | evidently intended | confidence | as-written member | corrected member |
|---|---|---|---|---|---|---|
| include/beman/cache_latest/cache_latest.hpp:120 | the address of the current element is assigned into `cache_`. There is no converting constructor from a pointer, so this fails to instantiate. Read as a call to the assignment operators of lines 26-35, it only resets the slot, and line 122 then dereferences an empty optional | a base whose elements are references, e.g. a view over a vector, dereferenced twice at one position | emplace the address when the cache is empty, so that later dereferences return the same storage without re-evaluating | high for the mismatch; not executed | CacheLatestSpec.RefAsWrittenNeverCaches | CacheLatestSpec.RefDerefAliases |

`CacheLatestSpec.RefDerefAsWritten` models the code as written, and
`RefAsWrittenNeverCaches` exhibits the failure. `CacheLatestSpec.RefDeref` is
the corrected step, and `RefDerefAliases` proves the intended identity and
at-most-once properties for it. The classes model the value branch only, so no
class member uses either reference-branch step.
