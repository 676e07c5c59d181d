/** The single-slot cache of cache_latest.hpp (class non_propagating_cache).
    Copying or moving a cache never carries its value across: every copy or
    move constructor yields an empty cache, every assignment empties the
    destination, and the move operations empty the source as well. */
module NonPropagating {

  /** The std::optional that the cache wraps. */
  datatype Option<T> = None | Some(value: T)

  /** Outcome of std::optional::value(): the held value, or the
      std::bad_optional_access exception it throws on an empty optional. */
  datatype Access<T> = Held(value: T) | BadOptionalAccess

  class Cache<T> {
    /** The wrapped std::optional<T> t_. */
    var slot: Option<T>

    /** non_propagating_cache() = default: the optional starts empty. */
    constructor ()
      ensures slot.None?
    {
      slot := None;
    }

    /** Copy construction: the new cache is empty and the source is only read. */
    constructor CopyOf(other: Cache<T>)
      ensures slot.None?
      ensures other.slot == old(other.slot)
    {
      slot := None;
    }

    /** Move construction: the new cache is empty and the source is reset. */
    constructor MoveOf(other: Cache<T>)
      modifies other
      ensures slot.None? && other.slot.None?
    {
      slot := None;
      new;
      other.Reset();
    }

    /** Copy assignment resets the destination only; self-assignment empties it. */
    method CopyAssign(other: Cache<T>)
      modifies this
      ensures slot.None?
      ensures other != this ==> other.slot == old(other.slot)
    {
      Reset();
    }

    /** Move assignment resets the source, then the destination. */
    method MoveAssign(other: Cache<T>)
      modifies this, other
      ensures slot.None? && other.slot.None?
    {
      other.Reset();
      Reset();
    }

    /** operator*: the held value; dereferencing an empty optional is undefined. */
    function Star(): (x: T)
      reads this
      requires slot.Some?
      ensures slot == Some(x)
    {
      slot.value
    }

    function HasValue(): (b: bool)
      reads this
      ensures b <==> slot.Some?
    {
      slot.Some?
    }

    /** value(): the held value, or bad_optional_access when there is none. */
    function Value(): (r: Access<T>)
      reads this
      ensures r.Held? <==> slot.Some?
      ensures r.Held? ==> slot == Some(r.value)
    {
      match slot
      case None => BadOptionalAccess
      case Some(x) => Held(x)
    }

    /** emplace: stores x in place of whatever was held and returns it. */
    method Emplace(x: T) returns (r: T)
      modifies this
      ensures slot == Some(x) && r == x
      ensures Value() == Held(x)
    {
      slot := Some(x);
      r := x;
    }

    /** reset: empties the cache; on an empty cache nothing changes. */
    method Reset()
      modifies this
      ensures slot.None?
      ensures old(slot).None? ==> unchanged(this)
    {
      slot := None;
    }
  }
}
