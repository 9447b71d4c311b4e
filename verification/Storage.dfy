/** Allocation and object lifetime events, and transactions (include/patton/detail/transaction.hpp). */
module Storage {
  import opened Wrappers

  datatype Event =
    | Allocated(address: nat, size: nat)
    | Freed(address: nat, size: nat)
    | Constructed(address: nat)
    | Destroyed(address: nat)

  function Constructions(addresses: seq<nat>): (log: seq<Event>)
    ensures |log| == |addresses|
  {
    seq(|addresses|, i requires 0 <= i < |addresses| => Constructed(addresses[i]))
  }

  function Destructions(addresses: seq<nat>): (log: seq<Event>)
    ensures |log| == |addresses|
  {
    seq(|addresses|, i requires 0 <= i < |addresses| => Destroyed(addresses[i]))
  }

  lemma ConstructionsConcat(s: seq<nat>, a: nat)
    ensures Constructions(s + [a]) == Constructions(s) + [Constructed(a)]
  {
  }

  lemma DestructionsConcat(s: seq<nat>, a: nat)
    ensures Destructions(s + [a]) == Destructions(s) + [Destroyed(a)]
  {
  }

  /** k addresses that are `stride` bytes apart. */
  function Strides(base: nat, stride: nat, k: nat): (s: seq<nat>)
    ensures |s| == k
  {
    seq(k, q requires 0 <= q => base + q * stride)
  }

  lemma StridesNext(base: nat, stride: nat, k: nat)
    ensures Strides(base, stride, k + 1) == Strides(base, stride, k) + [base + k * stride]
  {
  }

  /** How building something in storage ends. */
  datatype Outcome = Built | OutOfMemory | ConstructorThrew

  /** Everything that has happened to storage, in order. */
  class Heap {
    var log: seq<Event>

    constructor ()
      ensures log == []
    {
      log := [];
    }

    /** `where` is the allocator's answer; `None` is `std::bad_alloc`. */
    method Allocate(size: nat, where: Option<nat>) returns (r: Option<nat>)
      modifies this
      ensures r == where
      ensures log == if where.Some? then old(log) + [Allocated(where.value, size)] else old(log)
    {
      if where.Some? {
        log := log + [Allocated(where.value, size)];
      }
      r := where;
    }

    method Deallocate(address: nat, size: nat)
      modifies this
      ensures log == old(log) + [Freed(address, size)]
    {
      log := log + [Freed(address, size)];
    }

    /** Runs a constructor; no object comes into being if it throws. */
    method Construct(address: nat, throws: bool)
      modifies this
      ensures log == if throws then old(log) else old(log) + [Constructed(address)]
    {
      if !throws {
        log := log + [Constructed(address)];
      }
    }

    method Destroy(address: nat)
      modifies this
      ensures log == old(log) + [Destroyed(address)]
    {
      log := log + [Destroyed(address)];
    }
  }

  /** A transaction is rolled back at the end of its scope unless it has been committed. */
  class Transaction {
    var done: bool

    constructor ()
      ensures !done
    {
      done := false;
    }

    method Commit()
      modifies this
      ensures done
    {
      done := true;
    }
  }
}
