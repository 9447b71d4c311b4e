/** One-dimensional buffers with aligned elements (include/patton/buffer.hpp, include/patton/detail/buffer.hpp). */
module ElementBuffer {
  import opened Wrappers
  import opened ModArith
  import opened Arithmetic
  import opened Storage
  import opened RowBuffer

  // ----- the element loops -----

  /**
  The overload for constructors that may throw. It counts on, in unsigned arithmetic, from the value that the counter
  happens to have on entry. `calls` numbers the constructor calls for `failAt`.
  */
  method ConstructAlignedBuffer(heap: Heap, data: nat, counter: Size, size: Size, bytesPerElement: Size,
      failAt: Option<nat>)
    returns (numElementsConstructed: Size, threw: bool)
    requires bytesPerElement > 0 && size * bytesPerElement <= PTRDIFF_MAX
    modifies heap
    ensures threw <==> failAt.Some? && failAt.value < size
    ensures numElementsConstructed == Wrap(counter + if threw then failAt.value else size)
    ensures heap.log == old(heap.log)
                        + Constructions(Strides(data, bytesPerElement, if threw then failAt.value else size))
  {
    hide Constructions, Strides, Signed, Wrap;
    numElementsConstructed, threw := counter, false;
    NoWrap(counter);
    EndOfRows(size, bytesPerElement);
    var i, d, e := 0, bytesPerElement, Signed(Wrap(size * bytesPerElement));
    var calls: nat := 0;
    while i != e
      invariant calls <= size && i == calls * d && e == size * d
      invariant numElementsConstructed == Wrap(counter + calls)
      invariant failAt.Some? ==> failAt.value >= calls
      invariant heap.log == old(heap.log) + Constructions(Strides(data, bytesPerElement, calls))
      decreases size - calls
    {
      RowStep(i, calls, size, d);
      StridesNext(data, d, calls);
      ConstructionsConcat(Strides(data, d, calls), data + i);
      threw := failAt == Some(calls);
      heap.Construct(data + i, threw);
      if threw {
        return;
      }
      WrapSum(counter + calls, 1);
      numElementsConstructed := Wrap(numElementsConstructed + 1);
      i := i + d;
      calls := calls + 1;
    }
    RowStep(i, calls, size, d);
  }

  /** How often the strided loop up to `size` elements runs; `None` if its variable overflows before it gets there. */
  function Iterations(size: Size, bytesPerElement: Size): Option<nat>
    requires bytesPerElement > 0
  {
    var e := Signed(Wrap(size * bytesPerElement));
    if e >= 0 && e % bytesPerElement == 0 then Some(e / bytesPerElement) else None
  }

  /** How many elements the loop reaches before its variable overflows. */
  function Overrun(bytesPerElement: Size): nat
    requires bytesPerElement > 0
  {
    PTRDIFF_MAX / bytesPerElement + 1
  }

  /** Before the end, one stride more does not go past the end, if the end is reached at all. */
  lemma StrideBefore(i: nat, k: nat, d: nat, e: int)
    requires d > 0 && i == k * d && i != e && (e >= 0 && e % d == 0 ==> i <= e)
    ensures i + d == (k + 1) * d
    ensures e >= 0 && e % d == 0 ==> i + d <= e
  {
    if e >= 0 && e % d == 0 {
      MulLess(k, e / d, d);
      MulMonotone(k + 1, e / d, d);
    }
  }

  lemma StrideAtEnd(k: nat, d: nat)
    requires d > 0
    ensures (k * d) % d == 0 && (k * d) / d == k
  {
    DivModUnique(k * d, k, d, 0);
  }

  lemma LastStride(i: nat, k: nat, d: nat)
    requires d > 0 && i == k * d && i <= PTRDIFF_MAX < i + d
    ensures k == PTRDIFF_MAX / d
  {
    DivModUnique(PTRDIFF_MAX, k, d, PTRDIFF_MAX - i);
  }

  lemma SignedBelow(x: Size)
    ensures Signed(x) <= PTRDIFF_MAX
  {
  }

  /** Destroys `size` elements, as far as the loop gets: the source's loop variable is signed and must not overflow. */
  method DestroyAlignedBuffer(heap: Heap, data: nat, size: Size, bytesPerElement: Size) returns (overflowed: bool)
    requires 0 < bytesPerElement <= PTRDIFF_MAX  // as for every element that is in storage
    modifies heap
    ensures overflowed <==> Iterations(size, bytesPerElement).None?
    ensures heap.log == old(heap.log) + Destructions(Strides(data, bytesPerElement,
      if overflowed then Overrun(bytesPerElement) else Iterations(size, bytesPerElement).value))
  {
    hide Destructions, Strides, Signed, Wrap;
    var i, d, e := 0, bytesPerElement, Signed(Wrap(size * bytesPerElement));
    SignedBelow(Wrap(size * bytesPerElement));
    ghost var k: nat := 0;
    while i != e
      invariant 0 <= i == k * d && (i <= PTRDIFF_MAX || i == e)
      invariant e >= 0 && e % d == 0 ==> i <= e
      invariant heap.log == old(heap.log) + Destructions(Strides(data, bytesPerElement, k))
      decreases PTRDIFF_MAX - i
    {
      StrideBefore(i, k, d, e);
      StridesNext(data, d, k);
      DestructionsConcat(Strides(data, d, k), data + i);
      heap.Destroy(data + i);
      if i > PTRDIFF_MAX - d {
        LastStride(i, k, d);
        return true;
      }
      i := i + d;
      k := k + 1;
    }
    StrideAtEnd(k, d);
    return false;
  }

  // ----- construction with rollback -----

  /** What the rollback of a construction that counted to `counted` does. */
  function RollbackLog(data: nat, size: Size, bytesPerElement: Size, counted: Size): seq<Event>
    requires bytesPerElement > 0
  {
    match Iterations(counted, bytesPerElement)
    case Some(n) => Destructions(Strides(data, bytesPerElement, n)) + [Freed(data, size * bytesPerElement)]
    case None => Destructions(Strides(data, bytesPerElement, Overrun(bytesPerElement)))
  }

  /** What a construction does whose counter variable starts at `counter`. */
  function ConstructionLog(data: nat, size: Size, bytesPerElement: Size, failAt: Option<nat>, counter: Size): seq<Event>
    requires bytesPerElement > 0
  {
    if failAt.Some? && failAt.value < size then
      Constructions(Strides(data, bytesPerElement, failAt.value))
      + RollbackLog(data, size, bytesPerElement, Wrap(counter + failAt.value))
    else Constructions(Strides(data, bytesPerElement, size))
  }

  /** If a constructor throws, exactly the constructed elements are destroyed and the storage is freed. */
  function AllOrNothing(data: nat, size: Size, bytesPerElement: Size, failAt: Option<nat>): seq<Event> {
    if failAt.Some? && failAt.value < size then
      Constructions(Strides(data, bytesPerElement, failAt.value))
      + (Destructions(Strides(data, bytesPerElement, failAt.value)) + [Freed(data, size * bytesPerElement)])
    else Constructions(Strides(data, bytesPerElement, size))
  }

  predicate IsAllOrNothing(data: nat, size: Size, bytesPerElement: Size, failAt: Option<nat>, counter: Size)
    requires bytesPerElement > 0
  {
    ConstructionLog(data, size, bytesPerElement, failAt, counter) == AllOrNothing(data, size, bytesPerElement, failAt)
  }

  lemma SignedIs(x: Size, v: nat)
    requires Signed(x) == v
    ensures x == v
  {
  }

  /** The loop only ends at a whole number of strides that is no more than PTRDIFF_MAX bytes away. */
  lemma IterationsExact(count: Size, d: Size, k: nat)
    requires d > 0
    ensures Iterations(count, d) == Some(k) <==> k * d <= PTRDIFF_MAX && Wrap(count * d) == k * d
  {
    hide Wrap;
    var bytes := Wrap(count * d);
    StrideAtEnd(k, d);
    if Iterations(count, d) == Some(k) {
      var e := Signed(bytes);
      assert e == e / d * d;
      SignedBelow(bytes);
      SignedIs(bytes, k * d);
    }
    if bytes == k * d && k * d <= PTRDIFF_MAX {
      assert Signed(bytes) == k * d;
    }
  }

  /** The last element reached before an overflow starts within PTRDIFF_MAX bytes, and the next one would not. */
  lemma OverrunIsFirst(d: Size)
    requires d > 0
    ensures Overrun(d) > 0 && (Overrun(d) - 1) * d <= PTRDIFF_MAX < Overrun(d) * d
  {
    var q := PTRDIFF_MAX / d;
    assert PTRDIFF_MAX == q * d + PTRDIFF_MAX % d;
    assert (q + 1) * d == q * d + d;
  }

  /** Element q is constructed, or destroyed, q strides into the storage. */
  lemma ElementAt(data: nat, d: Size, k: nat, q: nat)
    requires q < k
    ensures Constructions(Strides(data, d, k))[q] == Constructed(data + q * d)
    ensures Destructions(Strides(data, d, k))[q] == Destroyed(data + q * d)
  {
  }

  lemma WrapsToAddend(u: int, v: int)
    requires 0 <= v <= SIZE_MAX
    ensures Wrap(u + v) == v <==> Wrap(u) == 0
  {
    hide Wrap;
    NoWrap(v);
    NoWrap(0);
    WrapSum(u, v);
    WrapSum(u + v, -v);
  }

  /** A rollback destroys the first k elements iff it counted so that counting from `counter` makes no difference. */
  lemma RollbackCounts(bytesPerElement: Size, k: Size, counter: Size)
    requires bytesPerElement > 0 && k * bytesPerElement <= PTRDIFF_MAX
    ensures Iterations(Wrap(counter + k), bytesPerElement) == Some(k) <==> Wrap(counter * bytesPerElement) == 0
  {
    hide Wrap, Iterations;
    var d, u, v := bytesPerElement, counter * bytesPerElement, k * bytesPerElement;
    IterationsExact(Wrap(counter + k), d, k);
    WrapProduct(counter + k, d);
    assert (counter + k) * d == u + v;
    WrapsToAddend(u, v);
  }

  lemma RollbackLogs(data: nat, size: Size, bytesPerElement: Size, k: Size, counted: Size)
    requires bytesPerElement > 0
    ensures RollbackLog(data, size, bytesPerElement, counted)
        == Destructions(Strides(data, bytesPerElement, k)) + [Freed(data, size * bytesPerElement)]
      <==> Iterations(counted, bytesPerElement) == Some(k)
  {
    hide Iterations;
    var done := RollbackLog(data, size, bytesPerElement, counted);
    var wanted := Destructions(Strides(data, bytesPerElement, k)) + [Freed(data, size * bytesPerElement)];
    if Iterations(counted, bytesPerElement).Some? {
      assert |done| == Iterations(counted, bytesPerElement).value + 1 && |wanted| == k + 1;
    } else {
      assert wanted[k].Freed?;
      assert |done| > k ==> done[k].Destroyed?;
    }
  }

  lemma SamePrefix(p: seq<Event>, q: seq<Event>, r: seq<Event>)
    ensures p + q == p + r <==> q == r
  {
    if p + q == p + r {
      assert (p + q)[|p|..] == q && (p + r)[|p|..] == r;
    }
  }

  /**
  If constructor k throws, the construction is all or nothing if and only if the bytes that the initial counter
  stands for are a multiple of 2^64; as long as they are fewer than that, if and only if the counter started at 0.
  */
  lemma RollbackIsExact(data: nat, size: Size, bytesPerElement: Size, k: Size, counter: Size)
    requires bytesPerElement > 0 && size * bytesPerElement <= PTRDIFF_MAX && k < size
    ensures IsAllOrNothing(data, size, bytesPerElement, Some(k), counter)
      <==> Wrap(counter * bytesPerElement) == 0
    ensures counter * bytesPerElement <= SIZE_MAX ==> (Wrap(counter * bytesPerElement) == 0 <==> counter == 0)
  {
    hide RollbackLog, Iterations, Constructions, Destructions, Strides, Wrap;
    MulMonotone(k, size, bytesPerElement);
    RollbackCounts(bytesPerElement, k, counter);
    RollbackLogs(data, size, bytesPerElement, k, Wrap(counter + k));
    SamePrefix(Constructions(Strides(data, bytesPerElement, k)),
      RollbackLog(data, size, bytesPerElement, Wrap(counter + k)),
      Destructions(Strides(data, bytesPerElement, k)) + [Freed(data, size * bytesPerElement)]);
    if counter * bytesPerElement <= SIZE_MAX {
      assert counter * bytesPerElement >= 0;
      NoWrap(counter * bytesPerElement);
    }
  }

  /**
  The construction is all or nothing whatever the uninitialised counter holds if and only if no element constructor
  throws.
  */
  lemma AllOrNothingIffNothingThrows(data: nat, size: Size, bytesPerElement: Size, failAt: Option<nat>)
    requires bytesPerElement > 0 && size * bytesPerElement <= PTRDIFF_MAX
    ensures (forall counter: Size :: IsAllOrNothing(data, size, bytesPerElement, failAt, counter))
      <==> failAt.None? || failAt.value >= size
  {
    hide RollbackLog, Constructions, Destructions, Strides, Wrap;
    if failAt.Some? && failAt.value < size {
      RollbackIsExact(data, size, bytesPerElement, failAt.value, 1);
      NoWrap(bytesPerElement);
      assert 1 * bytesPerElement == bytesPerElement;
      assert !IsAllOrNothing(data, size, bytesPerElement, failAt, 1);
    }
  }

  /**
  Two elements of 64 bytes, of which the second one's constructor throws, with a counter that happened to start at
  1: the rollback destroys both, although only the first was constructed.
  */
  lemma OneElementTooMany(data: nat, counter: Size)
    requires counter == 1
    ensures ConstructionLog(data, 2, 64, Some(1), counter)
      == [Constructed(data), Destroyed(data), Destroyed(data + 64), Freed(data, 128)]
  {
    assert Iterations(Wrap(counter + 1), 64) == Some(2);
    assert Strides(data, 64, 1) == [data] && Strides(data, 64, 2) == [data, data + 64];
  }

  lemma ComputedSizes(size: Size, elementSize: Size, alignment: Size)
    requires elementSize > 0 && alignment > 0
    ensures var d := Ceiling(elementSize, alignment); var r := TryCeili(elementSize, alignment);
      && d > 0 && (r.tooLarge <==> d > SIZE_MAX)
      && (!r.tooLarge ==>
            && r.value == d
            && (TryMultiplyUnsigned(size, d).tooLarge <==> size * d > SIZE_MAX)
            && (!TryMultiplyUnsigned(size, d).tooLarge ==> TryMultiplyUnsigned(size, d).value == size * d))
      && (size == 0 ==> size * d == 0)
  {
    hide TryCeili, TryMultiplyUnsigned;
    CeilingIsLeast(elementSize, alignment);
    CeiliIsExact(elementSize, alignment, Ceiling(elementSize, alignment));
    if Ceiling(elementSize, alignment) <= SIZE_MAX {
      MultiplyIsExact(size, Ceiling(elementSize, alignment));
    }
  }

  lemma FullIterations(size: Size, bytesPerElement: Size)
    requires bytesPerElement > 0 && size * bytesPerElement <= PTRDIFF_MAX
    ensures Iterations(size, bytesPerElement) == Some(size)
  {
    hide Signed, Wrap;
    EndOfRows(size, bytesPerElement);
    StrideAtEnd(size, bytesPerElement);
  }

  class AlignedBuffer {
    const heap: Heap
    const elementSize: Size       // sizeof(T)
    const alignment: Size         // alignment_in_bytes(Alignment | alignof(T))
    var data: Option<nat>
    var size: Size
    var bytesPerElement: Size

    constructor (heap: Heap, elementSize: Size, alignment: Size)
      ensures this.heap == heap && this.elementSize == elementSize && this.alignment == alignment && data == None
    {
      this.heap := heap;
      this.elementSize := elementSize;
      this.alignment := alignment;
      data, size, bytesPerElement := None, 0, 0;
    }

    /** The buffer owns storage for its elements. */
    predicate Owns(address: nat)
      reads this
    {
      data == Some(address) && 0 < bytesPerElement <= PTRDIFF_MAX && size * bytesPerElement <= PTRDIFF_MAX
    }

    /**
    The constructor, for elements whose constructors may throw. `where` is the allocator's answer to a request for
    storage; no allocator hands out more than PTRDIFF_MAX bytes. `failAt` numbers the element constructor that throws.
    `counter` is what the counter variable holds before it is first written: the source does not initialise it.
    */
    method Construct(size: Size, where: Option<nat>, failAt: Option<nat>, counter: Size)
      returns (outcome: Outcome)
      requires elementSize > 0 && alignment > 0 && data == None
      requires where.Some? && size * Ceiling(elementSize, alignment) <= SIZE_MAX ==>
        size * Ceiling(elementSize, alignment) <= PTRDIFF_MAX
      modifies this, heap
      ensures outcome.OutOfMemory? <==>
        || Ceiling(elementSize, alignment) > SIZE_MAX
        || size * Ceiling(elementSize, alignment) > SIZE_MAX
        || (size > 0 && where.None?)
      ensures outcome.ConstructorThrew? <==> !outcome.OutOfMemory? && failAt.Some? && failAt.value < size
      ensures outcome.OutOfMemory? || size == 0 ==> heap.log == old(heap.log) && data == None
      ensures outcome.Built? && size > 0 ==>
        && this.size == size && bytesPerElement == Ceiling(elementSize, alignment) && Owns(where.value)
        && heap.log == old(heap.log) + [Allocated(where.value, size * bytesPerElement)]
                       + Constructions(Strides(where.value, bytesPerElement, size))
      ensures outcome.ConstructorThrew? ==>
        var d: Size := Ceiling(elementSize, alignment);
        && d > 0 && data == None
        && heap.log == old(heap.log) + [Allocated(where.value, size * d)]
                       + Constructions(Strides(where.value, d, failAt.value))
                       + RollbackLog(where.value, size, d, Wrap(counter + failAt.value))
      ensures !outcome.OutOfMemory? && size > 0 ==>
        var d: Size := Ceiling(elementSize, alignment);
        && d > 0
        && heap.log == old(heap.log) + [Allocated(where.value, size * d)]
                       + ConstructionLog(where.value, size, d, failAt, counter)
    {
      hide Constructions, Destructions, Strides, Wrap, Iterations, Ceiling;
      ComputedSizes(size, elementSize, alignment);
      this.size := size;
      var perElement := TryCeili(elementSize, alignment);
      if perElement.tooLarge {
        return OutOfMemory;
      }
      bytesPerElement := perElement.value;
      if size == 0 {
        data := None;
        return Built;
      }
      var numBytes := TryMultiplyUnsigned(size, bytesPerElement);
      if numBytes.tooLarge {
        return OutOfMemory;
      }
      data := heap.Allocate(numBytes.value, where);
      if data.None? {
        return OutOfMemory;
      }
      MulMonotone(1, size, bytesPerElement);
      var transaction := new Transaction();
      var numElementsConstructed, threw :=
        ConstructAlignedBuffer(heap, data.value, counter, size, bytesPerElement, failAt);
      if !threw {
        transaction.Commit();
      }
      if !transaction.done {
        var overflowed := DestroyAlignedBuffer(heap, data.value, numElementsConstructed, bytesPerElement);
        if !overflowed {
          heap.Deallocate(data.value, size * bytesPerElement);
        }
        data := None;  // there is no object whose constructor throws
      }
      outcome := if threw then ConstructorThrew else Built;
    }

    /** The destructor of a buffer that owns storage. */
    method DestroyAndFree()
      requires data.Some? && Owns(data.value)
      modifies heap
      ensures heap.log == old(heap.log) + Destructions(Strides(data.value, bytesPerElement, size))
                          + [Freed(data.value, size * bytesPerElement)]
    {
      hide Destructions, Strides, Wrap, Signed;
      FullIterations(size, bytesPerElement);
      var overflowed := DestroyAlignedBuffer(heap, data.value, size, bytesPerElement);
      heap.Deallocate(data.value, size * bytesPerElement);
    }
  }
}
