/** Page-granular allocation (src/memory.cpp): sizes are rounded up to whole pages, the remainder is trapped. */
module PageAllocator {
  import opened Wrappers
  import opened Arithmetic
  import opened Memory
  import opened OutOfBoundsTraps

  /** `BadAlloc` is `std::bad_alloc`; `Refused` is the error that the operating system raises. */
  datatype Pages = Pages(address: nat) | BadAlloc | Refused

  /** Whole pages for `size` bytes; `where` is the answer of the operating system, if it is asked. */
  method PageAlloc(heap: ByteAllocator, size: Size, pageSize: Size, where: Option<nat>) returns (r: Pages)
    requires pageSize != 0
    requires where.Some? && Ceiling(size, pageSize) <= SIZE_MAX ==> heap.IsFree(where.value, Ceiling(size, pageSize))
    modifies heap`live, heap.bytes
    ensures r.BadAlloc? <==> Ceiling(size, pageSize) > SIZE_MAX
    ensures r.Refused? <==> !r.BadAlloc? && where.None?
    ensures !r.Pages? ==> heap.live == old(heap.live) && heap.bytes[..] == old(heap.bytes[..])
    ensures r.Pages? ==>
      var full := Ceiling(size, pageSize);
      && where == Some(r.address)
      && full % pageSize == 0 && size <= full < size + pageSize
      && heap.live == old(heap.live)[r.address := full]
      && r.address + full <= heap.bytes.Length
      && TrapWordsHold(heap.bytes[..], r.address, size, full)
      && forall q :: 0 <= q < heap.bytes.Length && !InTrap(r.address, size, full, q) ==>
           heap.bytes[q] == old(heap.bytes[q])
  {
    hide TrapCount, Traps, Written, TrapWordsHold, InTrap;
    CeilingIsLeast(size, pageSize);
    CeiliIsExact(size, pageSize, Ceiling(size, pageSize));
    var full := TryCeili(size, pageSize);
    if full.tooLarge {
      return BadAlloc;
    }
    var data := heap.Allocate(full.value, where);
    if data.None? {
      return Refused;
    }
    SetOutOfBoundsWriteTrap(heap, data.value, size, full.value);
    return Pages(data.value);
  }

  /** Gives whole pages back (the system unmaps every page of the range); `false` is `gsl_FailFast`. */
  method PageFree(heap: ByteAllocator, data: nat, size: Size, pageSize: Size) returns (ok: bool)
    requires pageSize != 0 && Ceiling(size, pageSize) <= SIZE_MAX
    requires data in heap.live && heap.live[data] == Ceiling(size, pageSize)
    requires data + Ceiling(size, pageSize) <= heap.bytes.Length
    modifies heap`live
    ensures ok <==> TrapWordsHold(heap.bytes[..], data, size, Ceiling(size, pageSize))
    ensures heap.live == if ok then old(heap.live) - {data} else old(heap.live)
  {
    hide TrapWordsHold;
    CeilingIsLeast(size, pageSize);
    CeiliIsExact(size, pageSize, Ceiling(size, pageSize));
    var full := TryCeili(size, pageSize);
    ok := CheckOutOfBoundsWriteTrap(heap, data, size, full.value);
    if ok {
      heap.Deallocate(data, full.value);
    }
  }

  // ----- callers -----

  lemma ByteWritten(memory: seq<Byte>, q: nat, value: Byte)
    requires q < |memory|
    ensures Written(memory, q, [value]) == memory[q := value]
  {
  }

  /** A caller that writes a byte and gives the pages back: this fails if and only if it has changed a trapped byte. */
  method PageAllocWriteFree(heap: ByteAllocator, size: Size, pageSize: Size, where: nat, offset: nat, value: Byte)
    returns (ok: bool)
    requires pageSize != 0 && Ceiling(size, pageSize) <= SIZE_MAX && heap.IsFree(where, Ceiling(size, pageSize))
    requires offset < Ceiling(size, pageSize)
    modifies heap`live, heap.bytes
    ensures ok <==> (InTrap(where, size, Ceiling(size, pageSize), where + offset) ==>
                       value == [0xEF, 0xBE, 0xAD, 0xDE][(offset - size) % 4])
    ensures ok ==> heap.live == old(heap.live)
  {
    hide TrapWordsHold, InTrap, Written;
    var pages := PageAlloc(heap, size, pageSize, Some(where));
    ghost var before, full := heap.bytes[..], Ceiling(size, pageSize);
    heap.Store(where + offset, [value]);
    ByteWritten(before, where + offset, value);
    TrapsDetect(before, heap.bytes[..], where, size, full);
    if InTrap(where, size, full, where + offset) {
      TrapByteAt(before, where, size, full, where + offset);
    }
    ok := PageFree(heap, where, size, pageSize);
  }
}
