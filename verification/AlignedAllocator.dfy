/**
The allocator adaptor that over-allocates (include/patton/detail/memory.hpp). Behind the payload it keeps two trap
words and the address of the block it got from the allocator below.
*/
module AlignedAllocator {
  import opened Wrappers
  import opened ModArith
  import opened Arithmetic
  import opened Bits
  import opened Alignment
  import opened Memory
  import opened OutOfBoundsTraps

  const ADDRESS_SIZE: nat := 8
  const TRAP_SIZE: nat := 2 * WORD_SIZE
  const CONTROL_SIZE: nat := TRAP_SIZE + ADDRESS_SIZE

  /** `std::align`: the first suitably aligned address at which `size` bytes fit into the `space` bytes at `address`. */
  function Align(alignment: nat, size: nat, address: nat, space: nat): (r: Option<(nat, nat)>)
    requires alignment > 0
  {
    var aligned := Ceiling(address, alignment);
    if size + (aligned - address) > space then None else Some((aligned, space - (aligned - address)))
  }

  /** The number of bytes to get from the allocator below, in unsigned arithmetic, as `allocate` computes it. */
  function BytesToAllocate(bytes: Size, alignment: Size): Size {
    Wrap(Wrap(Wrap(Wrap(bytes + alignment) + ADDRESS_SIZE) - 1) + TRAP_SIZE)
  }

  /** The size of a request in bytes; `None` is `std::bad_alloc`. */
  function RequestSize(n: Size, elementSize: Size, alignment: Size): Option<Size>
    requires elementSize > 0
  {
    if n >= SIZE_MAX / elementSize then None
    else
      var bytes := Wrap(n * elementSize);
      if BytesToAllocate(bytes, alignment) < bytes then None else Some(bytes)
  }

  /** Comparing the wrapped size with that of the payload detects every overflow, and nothing else. */
  lemma WraparoundIsDetected(bytes: Size, alignment: Size)
    requires 0 < alignment < TOP_BIT
    ensures BytesToAllocate(bytes, alignment) < bytes <==> bytes + alignment + CONTROL_SIZE - 1 > SIZE_MAX
    ensures bytes + alignment + CONTROL_SIZE - 1 <= SIZE_MAX ==>
      BytesToAllocate(bytes, alignment) == bytes + alignment + CONTROL_SIZE - 1
  {
    hide Wrap;
    WrapSum(bytes + alignment, ADDRESS_SIZE);
    WrapSum(bytes + alignment + ADDRESS_SIZE, -1);
    WrapSum(bytes + alignment + ADDRESS_SIZE - 1, TRAP_SIZE);
    var total := bytes + alignment + CONTROL_SIZE - 1;
    if total <= SIZE_MAX {
      NoWrap(total);
    } else {
      WrapOnce(total);
    }
  }

  /** `allocate` gives up before asking for memory exactly in these cases; it asks for the right size otherwise. */
  lemma RequestIsExact(n: Size, elementSize: Size, alignment: Size)
    requires elementSize > 0 && 0 < alignment < TOP_BIT
    ensures RequestSize(n, elementSize, alignment).None?
      <==> n >= SIZE_MAX / elementSize || n * elementSize + alignment + CONTROL_SIZE - 1 > SIZE_MAX
    ensures RequestSize(n, elementSize, alignment).Some? ==>
      && RequestSize(n, elementSize, alignment).value == n * elementSize
      && BytesToAllocate(n * elementSize, alignment) == n * elementSize + alignment + CONTROL_SIZE - 1
  {
    hide BytesToAllocate, Wrap;
    if n < SIZE_MAX / elementSize {
      QuotientBound(n, elementSize, SIZE_MAX);
      assert 0 <= n * elementSize;
      NoWrap(n * elementSize);
      WraparoundIsDetected(n * elementSize, alignment);
    }
  }

  /** However the block lies, the aligned payload and its control bytes fit, with no byte to spare in the worst case. */
  lemma AlignedFits(alignment: nat, bytes: nat, address: nat)
    requires alignment > 0
    ensures var space := bytes + alignment + CONTROL_SIZE - 1;
      && Align(alignment, bytes + ADDRESS_SIZE, address, space).Some?
      && var (aligned, left) := Align(alignment, bytes + ADDRESS_SIZE, address, space).value;
      && aligned % alignment == 0
      && address <= aligned && aligned + bytes + CONTROL_SIZE <= address + space
      && left >= bytes + ADDRESS_SIZE
      && (address % alignment == 1 % alignment ==> aligned + bytes + CONTROL_SIZE == address + space)
  {
    CeilingIsLeast(address, alignment);
    if alignment == 1 {
      assert address % 1 == 0;
    } else {
      ModSmall(1, alignment);
    }
  }

  // ----- control bytes -----

  /** What `allocate` writes behind the payload. */
  function ControlBytes(block: nat): (c: seq<Byte>)
    ensures |c| == CONTROL_SIZE
  {
    Traps(2) + ToBytes(block, ADDRESS_SIZE)
  }

  function SavedAddress(memory: seq<Byte>, data: nat, bytes: nat): nat
    requires data + bytes + CONTROL_SIZE <= |memory|
  {
    FromBytes(memory[data + bytes + TRAP_SIZE..data + bytes + CONTROL_SIZE])
  }

  /** An allocation of `bytes` bytes at `data`, in the block at `block`, whose control bytes are undamaged. */
  predicate Sealed(memory: seq<Byte>, data: nat, bytes: nat, block: nat)
    requires data + bytes + CONTROL_SIZE <= |memory|
  {
    memory[data + bytes..data + bytes + CONTROL_SIZE] == ControlBytes(block)
  }

  lemma TwoTraps(bytes: nat)
    ensures TrapCount(bytes, bytes + TRAP_SIZE) == 2
  {
  }

  /** A sealed allocation passes the trap check and yields the address of its block. */
  lemma SealedIsReadable(memory: seq<Byte>, data: nat, bytes: nat, block: Size)
    requires data + bytes + CONTROL_SIZE <= |memory| && Sealed(memory, data, bytes, block)
    ensures TrapWordsHold(memory, data, bytes, bytes + 8) && SavedAddress(memory, data, bytes) == block
  {
    hide Traps, ToBytes, FromBytes, TrapCount, TrapWordsHold;
    TwoTraps(bytes);
    var lo, hi := data + bytes, data + bytes + CONTROL_SIZE;
    SliceOfSlice(memory, lo, hi, 0, TRAP_SIZE);
    SliceOfSlice(memory, lo, hi, TRAP_SIZE, CONTROL_SIZE);
    AddressFits();
    BytesRoundTrip(block, ADDRESS_SIZE);
    IntactIffWordsHold(memory, data, bytes, bytes + TRAP_SIZE);
  }

  /** Writes confined to the payload leave the allocation sealed. */
  lemma PayloadWritesKeepSeal(memory: seq<Byte>, memory': seq<Byte>, data: nat, bytes: nat, block: Size)
    requires data + bytes + CONTROL_SIZE <= |memory| && |memory'| == |memory| && Sealed(memory, data, bytes, block)
    requires forall q :: 0 <= q < |memory| && !(data <= q < data + bytes) ==> memory'[q] == memory[q]
    ensures Sealed(memory', data, bytes, block)
  {
    hide ControlBytes;
    var lo, hi := data + bytes, data + bytes + CONTROL_SIZE;
    assert memory'[lo..hi] == memory[lo..hi];
  }

  /** A change to any byte of a trap word makes the check of a sealed allocation fail. */
  lemma DamageIsDetected(memory: seq<Byte>, memory': seq<Byte>, data: nat, bytes: nat, block: Size, q: nat)
    requires data + bytes + CONTROL_SIZE <= |memory| && |memory'| == |memory| && Sealed(memory, data, bytes, block)
    requires data + bytes <= q < data + bytes + 8 && memory'[q] != memory[q]
    ensures !TrapWordsHold(memory', data, bytes, bytes + 8)
  {
    hide TrapWordsHold, Sealed;
    SealedIsReadable(memory, data, bytes, block);
    TrapsDetect(memory, memory', data, bytes, bytes + 8);
    assert InTrap(data, bytes, bytes + 8, q);
  }

  lemma WrittenSeals(memory: seq<Byte>, data: nat, bytes: nat, block: nat)
    requires data + bytes + CONTROL_SIZE <= |memory|
    ensures Written(Written(memory, data + bytes + TRAP_SIZE, ToBytes(block, ADDRESS_SIZE)), data + bytes, Traps(2))
      == Written(memory, data + bytes, ControlBytes(block))
    ensures Sealed(Written(memory, data + bytes, ControlBytes(block)), data, bytes, block)
  {
    hide Traps, ToBytes;
  }

  /** Allocating writes control bytes only. */
  lemma ControlBytesOnly(memory: seq<Byte>, memory': seq<Byte>, data: nat, bytes: nat, block: nat)
    requires data + bytes + CONTROL_SIZE <= |memory|
    requires memory' == Written(memory, data + bytes, ControlBytes(block))
    ensures forall q :: 0 <= q < |memory| && !(0 <= q - (data + bytes) < 16) ==> memory'[q] == memory[q]
  {
    hide Written, ControlBytes;
    forall q | 0 <= q < |memory| && !(0 <= q - (data + bytes) < 16) ensures memory'[q] == memory[q] {
      WrittenElsewhere(memory, data + bytes, ControlBytes(block), q);
    }
  }

  lemma PayloadWritten(memory: seq<Byte>, data: nat, payload: seq<Byte>)
    requires data + |payload| <= |memory|
    ensures forall q :: 0 <= q < |memory| && !(data <= q < data + |payload|) ==>
      Written(memory, data, payload)[q] == memory[q]
  {
  }

  // ----- the adaptor -----

  lemma AlignmentBelow(hw: Hardware, a: nat)
    ensures 0 < AlignmentInBytes(hw, a) < TOP_BIT
  {
    hide AlignmentInBytes, LookupSpecialAlignments, Length, Pow2;
    InBytes(hw, a);
    var x := LookupSpecialAlignments(hw, a);
    if x > 0 {
      LengthBounds(x);
    }
  }

  class Adaptor {
    const underlying: ByteAllocator
    const hw: Hardware
    const requested: Size        // Alignment | alignof(T)
    const elementSize: Size      // sizeof(T)

    constructor (underlying: ByteAllocator, hw: Hardware, requested: Size, elementSize: Size)
      ensures this.underlying == underlying && this.hw == hw
      ensures this.requested == requested && this.elementSize == elementSize
    {
      this.underlying := underlying;
      this.hw := hw;
      this.requested := requested;
      this.elementSize := elementSize;
    }

    /** `n * sizeof(T)` as a natural number. */
    function PayloadSize(n: nat): (bytes: nat)
      ensures bytes == n * elementSize
    {
      n * elementSize
    }

    /** The allocation of `n` elements at `data` lies in memory, control bytes included. */
    predicate InMemory(data: nat, n: nat)
      reads underlying
    {
      data + PayloadSize(n) + CONTROL_SIZE <= underlying.bytes.Length
    }

    /** Requests that do not fail with `std::bad_alloc` before memory is asked for. */
    predicate Accepts(n: Size) {
      elementSize > 0 && n < SIZE_MAX / elementSize
      && n * elementSize + AlignmentInBytes(hw, requested) + CONTROL_SIZE - 1 <= SIZE_MAX
    }

    /** The two trap words behind the `n` elements at `data` hold the trap value. */
    ghost predicate Intact(data: nat, n: nat)
      requires InMemory(data, n)
      reads underlying, underlying.bytes
    {
      TrapWordsHold(underlying.bytes[..], data, PayloadSize(n), PayloadSize(n) + 8)
    }

    /** The address that is saved behind the traps. */
    function Block(data: nat, n: nat): nat
      requires InMemory(data, n)
      reads underlying, underlying.bytes
    {
      SavedAddress(underlying.bytes[..], data, PayloadSize(n))
    }

    /**
    Aligned memory for `n` elements, or `None` for `std::bad_alloc`. `where` is the answer of the allocator below,
    should it be asked. Behind the payload there are two trap words and the address of the block; nothing else is
    written.
    */
    method Allocate(n: Size, where: Option<nat>) returns (r: Option<nat>)
      requires elementSize > 0 && underlying.bytes.Length <= SIZE_LIMIT
      requires where.Some? && Accepts(n) ==>
        underlying.IsFree(where.value, PayloadSize(n) + AlignmentInBytes(hw, requested) + 15)
      modifies underlying`live, underlying.bytes
      ensures r.Some? <==> where.Some? && n < SIZE_MAX / elementSize
                           && n * elementSize + AlignmentInBytes(hw, requested) + 15 <= SIZE_MAX
      ensures r.None? ==> underlying.live == old(underlying.live) && underlying.bytes[..] == old(underlying.bytes[..])
      ensures r.Some? ==>
        && r.value % AlignmentInBytes(hw, requested) == 0
        && where.value <= r.value
        && r.value + PayloadSize(n) + 16 <= where.value + (PayloadSize(n) + AlignmentInBytes(hw, requested) + 15)
        && underlying.live == old(underlying.live)[where.value := PayloadSize(n) + AlignmentInBytes(hw, requested) + 15]
        && InMemory(r.value, n)
        && Sealed(underlying.bytes[..], r.value, PayloadSize(n), where.value)
        && Intact(r.value, n) && Block(r.value, n) == where.value
      ensures r.Some? ==>
        forall q :: 0 <= q < underlying.bytes.Length && !(0 <= q - (r.value + PayloadSize(n)) < 16) ==>
          underlying.bytes[q] == old(underlying.bytes[q])
    {
      hide Traps, ToBytes, FromBytes, Written, ControlBytes, Sealed, TrapWordsHold, Wrap, AlignmentInBytes;
      var a := AlignmentInBytes(hw, requested);
      AlignmentBelow(hw, requested);
      RequestIsExact(n, elementSize, a);
      if n >= SIZE_MAX / elementSize {
        return None;
      }
      var nbData := Wrap(n * elementSize);
      var nbAlloc := BytesToAllocate(nbData, a);
      if nbAlloc < nbData {
        return None;
      }
      var mem := underlying.Allocate(nbAlloc, where);
      if mem.None? {
        return None;
      }
      AlignedFits(a, nbData, mem.value);
      var aligned := Align(a, nbData + ADDRESS_SIZE, mem.value, nbAlloc);
      var data := aligned.value.0;
      assert aligned.value.1 >= nbData + ADDRESS_SIZE;
      underlying.Store(data + nbData + TRAP_SIZE, ToBytes(mem.value, ADDRESS_SIZE));
      TwoTraps(nbData);
      SetOutOfBoundsWriteTrap(underlying, data, nbData, nbData + TRAP_SIZE);
      WrittenSeals(old(underlying.bytes[..]), data, nbData, mem.value);
      SealedIsReadable(underlying.bytes[..], data, nbData, mem.value);
      ControlBytesOnly(old(underlying.bytes[..]), underlying.bytes[..], data, nbData, mem.value);
      return Some(data);
    }

    /** Gives memory back, whole block and all; `false` is `gsl_FailFast`. */
    method Deallocate(data: nat, n: Size) returns (ok: bool)
      requires Accepts(n) && InMemory(data, n)
      requires Intact(data, n) ==>
        && Block(data, n) in underlying.live
        && underlying.live[Block(data, n)] == PayloadSize(n) + AlignmentInBytes(hw, requested) + 15
      modifies underlying`live
      ensures ok <==> old(Intact(data, n))
      ensures underlying.live == if ok then old(underlying.live) - {old(Block(data, n))} else old(underlying.live)
    {
      hide FromBytes, Wrap, AlignmentInBytes, TrapWordsHold;
      var a := AlignmentInBytes(hw, requested);
      AlignmentBelow(hw, requested);
      RequestIsExact(n, elementSize, a);
      var nbData := Wrap(n * elementSize);
      var nbAlloc := BytesToAllocate(nbData, a);
      var mem := FromBytes(underlying.bytes[data + nbData + TRAP_SIZE..data + nbData + CONTROL_SIZE]);
      ok := CheckOutOfBoundsWriteTrap(underlying, data, nbData, nbData + TRAP_SIZE);
      if !ok {
        return;
      }
      underlying.Deallocate(mem, nbAlloc);
    }
  }

  /** What the adaptor hands out for elements of alignment `e` is aligned for them. */
  lemma AlignedForElements(hw: Hardware, alignment: Size, e: Size, address: nat)
    requires Plausible(hw) && IsSize(e) && address % AlignmentInBytes(hw, Or(alignment, e)) == 0
    ensures e > 0 && address % e == 0
  {
    hide AlignmentInBytes, Or, Pow2;
    CoversElementAlignment(hw, alignment, e);
    DividesTrans(address, AlignmentInBytes(hw, Or(alignment, e)), e);
  }

  // ----- callers -----

  /** A caller that fills its payload and gives it back: the block below goes back as it came. */
  method AllocateUseDeallocate(adaptor: Adaptor, n: Size, where: nat, payload: seq<Byte>) returns (ok: bool)
    requires adaptor.Accepts(n) && adaptor.underlying.bytes.Length <= SIZE_LIMIT
    requires adaptor.underlying.IsFree(where,
      adaptor.PayloadSize(n) + AlignmentInBytes(adaptor.hw, adaptor.requested) + 15)
    requires |payload| == adaptor.PayloadSize(n)
    modifies adaptor.underlying`live, adaptor.underlying.bytes
    ensures ok && adaptor.underlying.live == old(adaptor.underlying.live)
  {
    hide Sealed, Written, ControlBytes, TrapWordsHold, AlignmentInBytes, FromBytes;
    var data := adaptor.Allocate(n, Some(where));
    ghost var before := adaptor.underlying.bytes[..];
    adaptor.underlying.Store(data.value, payload);
    PayloadWritten(before, data.value, payload);
    PayloadWritesKeepSeal(before, adaptor.underlying.bytes[..], data.value, |payload|, where);
    SealedIsReadable(adaptor.underlying.bytes[..], data.value, |payload|, where);
    ok := adaptor.Deallocate(data.value, n);
  }

  /** A caller that writes one byte past the payload, into a trap: giving the memory back fails. */
  method AllocateDamageDeallocate(adaptor: Adaptor, n: Size, where: nat, past: nat, value: Byte) returns (ok: bool)
    requires adaptor.Accepts(n) && adaptor.underlying.bytes.Length <= SIZE_LIMIT
    requires adaptor.underlying.IsFree(where,
      adaptor.PayloadSize(n) + AlignmentInBytes(adaptor.hw, adaptor.requested) + 15)
    requires past < 8 && value != [0xEF, 0xBE, 0xAD, 0xDE][past % 4]
    modifies adaptor.underlying`live, adaptor.underlying.bytes
    ensures !ok
    ensures adaptor.underlying.live == old(adaptor.underlying.live)[
      where := adaptor.PayloadSize(n) + AlignmentInBytes(adaptor.hw, adaptor.requested) + 15]
  {
    hide Sealed, Written, ControlBytes, TrapWordsHold, AlignmentInBytes, FromBytes, TrapWord;
    var data := adaptor.Allocate(n, Some(where));
    ghost var before := adaptor.underlying.bytes[..];
    var bytes := adaptor.PayloadSize(n);
    var q := data.value + bytes + past;
    assert InTrap(data.value, bytes, bytes + 8, q);
    TrapByteAt(before, data.value, bytes, bytes + 8, q);
    adaptor.underlying.Store(q, [value]);
    ReadsWritten(before, q, [value]);
    assert adaptor.underlying.bytes[..][q..q + 1] == [value];
    DamageIsDetected(before, adaptor.underlying.bytes[..], data.value, bytes, where, q);
    ok := adaptor.Deallocate(data.value, n);
  }
}
