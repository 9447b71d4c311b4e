/** Array allocation with rollback (include/patton/detail/memory.hpp). */
module AllocateArray {
  import opened Wrappers
  import opened Storage

  function Reversed(s: seq<nat>): (r: seq<nat>)
    ensures |r| == |s|
  {
    if s == [] then [] else [s[|s| - 1]] + Reversed(s[..|s| - 1])
  }

  lemma ReversedNext(ptr: nat, elementSize: nat, j: nat)
    ensures Reversed(Strides(ptr, elementSize, j + 1))
      == [ptr + j * elementSize] + Reversed(Strides(ptr, elementSize, j))
  {
    StridesNext(ptr, elementSize, j);
    var front := Strides(ptr, elementSize, j);
    assert (front + [ptr + j * elementSize])[..j] == front;
  }

  lemma MoveOver(gone: seq<nat>, a: nat, rest: seq<nat>)
    ensures gone + ([a] + rest) == gone + [a] + rest
  {
  }

  lemma DestructionsJoinEmpty()
    ensures Destructions([]) == []
  {
  }

  /** The rollback destroys in reverse order. */
  method DestroyBackwards(heap: Heap, ptr: nat, elementSize: nat, i: nat)
    modifies heap
    ensures heap.log == old(heap.log) + Destructions(Reversed(Strides(ptr, elementSize, i)))
  {
    hide Destructions, Strides, Reversed;
    ghost var rest := Reversed(Strides(ptr, elementSize, i));
    ghost var gone: seq<nat> := [];
    DestructionsJoinEmpty();
    var j := i - 1;
    while j >= 0
      invariant -1 <= j < i
      invariant rest == Reversed(Strides(ptr, elementSize, j + 1))
      invariant gone + rest == Reversed(Strides(ptr, elementSize, i))
      invariant heap.log == old(heap.log) + Destructions(gone)
    {
      ReversedNext(ptr, elementSize, j);
      DestructionsConcat(gone, ptr + j * elementSize);
      heap.Destroy(ptr + j * elementSize);
      rest := Reversed(Strides(ptr, elementSize, j));
      MoveOver(gone, ptr + j * elementSize, rest);
      gone := gone + [ptr + j * elementSize];
      j := j - 1;
    }
    assert gone + rest == gone;
  }

  lemma NothingConstructed(ptr: nat, elementSize: nat)
    ensures Constructions(Strides(ptr, elementSize, 0)) == []
  {
  }

  /**
  Allocates `n` elements and constructs them in order. If constructor number `failAt` throws, exactly the elements
  before it are destroyed, in reverse order, and the storage is given back.
  */
  method AllocateArray(heap: Heap, n: nat, elementSize: nat, where: Option<nat>, failAt: Option<nat>)
    returns (outcome: Outcome, ptr: nat)
    modifies heap
    ensures outcome.OutOfMemory? <==> where.None?
    ensures outcome.ConstructorThrew? <==> where.Some? && failAt.Some? && failAt.value < n
    ensures outcome.Built? ==> ptr == where.value
    ensures heap.log == old(heap.log) +
      match outcome
      case OutOfMemory => []
      case Built => [Allocated(where.value, n)] + Constructions(Strides(where.value, elementSize, n))
      case ConstructorThrew =>
        [Allocated(where.value, n)] + Constructions(Strides(where.value, elementSize, failAt.value))
        + Destructions(Reversed(Strides(where.value, elementSize, failAt.value))) + [Freed(where.value, n)]
  {
    hide Destructions, Constructions, Strides, Reversed;
    var mem := heap.Allocate(n, where);
    if mem.None? {
      return OutOfMemory, 0;
    }
    ptr := mem.value;
    var transaction := new Transaction();
    var i, threw := 0, false;
    NothingConstructed(ptr, elementSize);
    while i != n && !threw
      invariant i <= n && !transaction.done
      invariant threw ==> i < n && failAt == Some(i)
      invariant !threw ==> (failAt.Some? ==> failAt.value >= i)
      invariant heap.log == old(heap.log) + [Allocated(ptr, n)] + Constructions(Strides(ptr, elementSize, i))
      decreases n - i, !threw
    {
      threw := failAt == Some(i);
      heap.Construct(ptr + i * elementSize, threw);
      if !threw {
        StridesNext(ptr, elementSize, i);
        ConstructionsConcat(Strides(ptr, elementSize, i), ptr + i * elementSize);
        i := i + 1;
      }
    }
    if !threw {
      transaction.Commit();
    }
    if !transaction.done {
      DestroyBackwards(heap, ptr, elementSize, i);
      heap.Deallocate(ptr, n);
    }
    outcome := if threw then ConstructorThrew else Built;
  }

  /** Reversed order: the q-th element destroyed is the q-th last one constructed. */
  lemma {:induction false} ReversedAt(s: seq<nat>, q: nat)
    requires q < |s|
    ensures Reversed(s)[q] == s[|s| - 1 - q]
    decreases |s|
  {
    if q > 0 {
      ReversedAt(s[..|s| - 1], q - 1);
    }
  }
}
