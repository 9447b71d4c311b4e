/** Known patterns just behind an allocation that betray out-of-bounds writes (src/memory.cpp). */
module OutOfBoundsTraps {
  import opened Memory

  const MAX_TRAP_COUNT: nat := 4
  const WORD_SIZE: nat := 4
  const TRAP_VALUE: nat := 0xDEAD_BEEF

  function TrapWord(): (w: seq<Byte>)
    ensures |w| == WORD_SIZE
  {
    ToBytes(TRAP_VALUE, WORD_SIZE)
  }

  function TrapCount(size: nat, allocSize: nat): (c: nat)
    requires size <= allocSize
    ensures c <= MAX_TRAP_COUNT && size + c * WORD_SIZE <= allocSize
  {
    var words := (allocSize - size) / WORD_SIZE;
    if words < MAX_TRAP_COUNT then words else MAX_TRAP_COUNT
  }

  /** `count` trap words in a row. */
  function Traps(count: nat): (t: seq<Byte>)
    ensures |t| == count * WORD_SIZE
  {
    if count == 0 then [] else Traps(count - 1) + TrapWord()
  }

  /** The trap words behind the `size` bytes at `data` are all there. */
  predicate TrapsIntact(memory: seq<Byte>, data: nat, size: nat, allocSize: nat)
    requires size <= allocSize && data + allocSize <= |memory|
  {
    memory[data + size..data + size + TrapCount(size, allocSize) * WORD_SIZE] == Traps(TrapCount(size, allocSize))
  }

  lemma {:induction false} TrapsAt(count: nat, i: nat)
    requires i < count
    ensures Traps(count)[i * WORD_SIZE..(i + 1) * WORD_SIZE] == TrapWord()
    decreases count
  {
    if i < count - 1 {
      TrapsAt(count - 1, i);
      assert Traps(count)[i * WORD_SIZE..(i + 1) * WORD_SIZE] == Traps(count - 1)[i * WORD_SIZE..(i + 1) * WORD_SIZE];
    }
  }

  lemma TrapsNext(i: nat)
    ensures Traps(i + 1) == Traps(i) + TrapWord()
  {
  }

  lemma NoTraps(memory: seq<Byte>, address: nat)
    requires address <= |memory|
    ensures Traps(0) == [] && Written(memory, address, []) == memory
  {
  }

  lemma IsTrapWord(word: seq<Byte>)
    requires |word| == WORD_SIZE
    ensures FromBytes(word) == TRAP_VALUE <==> word == TrapWord()
  {
    AddressFits();
    BytesRoundTrip(TRAP_VALUE, WORD_SIZE);
    if FromBytes(word) == TRAP_VALUE {
      FromBytesInjective(word, TrapWord());
    }
  }

  lemma IntactTrap(memory: seq<Byte>, data: nat, size: nat, allocSize: nat, i: nat)
    requires size <= allocSize && data + allocSize <= |memory| && i < TrapCount(size, allocSize)
    requires TrapsIntact(memory, data, size, allocSize)
    ensures var at := data + size + i * WORD_SIZE; memory[at..at + WORD_SIZE] == TrapWord()
  {
    var count, lo := TrapCount(size, allocSize), data + size;
    var hi, a, b := lo + count * WORD_SIZE, i * WORD_SIZE, (i + 1) * WORD_SIZE;
    assert memory[lo..hi] == Traps(count);
    hide TrapCount, Traps, TrapWord, TrapsIntact;
    TrapsAt(count, i);
    SliceOfSlice(memory, lo, hi, a, b);
  }

  // ----- the trapped bytes -----

  /** The byte at `q` is in a trap: in one of the first four words behind the `size` bytes at `data` that fit. */
  predicate InTrap(data: nat, size: nat, allocSize: nat, q: int) {
    var offset := q - (data + size);
    0 <= offset < 16 && size + offset - offset % 4 + 4 <= allocSize
  }

  /** The first four words behind the allocation, or as many as fit, are the number 0xDEADBEEF. */
  ghost predicate TrapWordsHold(memory: seq<Byte>, data: nat, size: nat, allocSize: nat)
    requires size <= allocSize && data + allocSize <= |memory|
  {
    forall i: nat :: i < 4 && size + 4 * i + 4 <= allocSize ==>
      FromBytes(memory[data + size + 4 * i..data + size + 4 * i + 4]) == 0xDEAD_BEEF
  }

  /** As many words are trapped as fit, up to four. */
  lemma TrapCountIsGreatest(size: nat, allocSize: nat, i: nat)
    requires size <= allocSize
    ensures i < TrapCount(size, allocSize) <==> i < 4 && size + 4 * i + 4 <= allocSize
  {
  }

  lemma TrapRange(data: nat, size: nat, allocSize: nat, q: int)
    requires size <= allocSize
    ensures InTrap(data, size, allocSize, q)
      <==> data + size <= q < data + size + TrapCount(size, allocSize) * WORD_SIZE
  {
    hide TrapCount;
    var o := q - (data + size);
    if o >= 0 {
      TrapCountIsGreatest(size, allocSize, o / 4);
    }
  }

  lemma {:induction false} WordsMakeTraps(memory: seq<Byte>, at: nat, count: nat)
    requires at + count * WORD_SIZE <= |memory|
    requires forall i: nat :: i < count ==> memory[at + 4 * i..at + 4 * i + 4] == TrapWord()
    ensures memory[at..at + count * WORD_SIZE] == Traps(count)
    decreases count
  {
    hide TrapWord;
    if count > 0 {
      WordsMakeTraps(memory, at, count - 1);
      var i := count - 1;
      var mid := at + 4 * i;
      assert memory[at + 4 * i..at + 4 * i + 4] == TrapWord();
      assert memory[at..at + count * WORD_SIZE] == memory[at..mid] + memory[mid..mid + WORD_SIZE];
    }
  }

  /** The traps are intact if and only if every word that should be trapped holds the trap value. */
  lemma IntactIffWordsHold(memory: seq<Byte>, data: nat, size: nat, allocSize: nat)
    requires size <= allocSize && data + allocSize <= |memory|
    ensures TrapsIntact(memory, data, size, allocSize) <==> TrapWordsHold(memory, data, size, allocSize)
  {
    hide TrapCount, Traps, TrapWord, FromBytes;
    var count, at := TrapCount(size, allocSize), data + size;
    forall i: nat ensures i < count <==> i < 4 && size + 4 * i + 4 <= allocSize {
      TrapCountIsGreatest(size, allocSize, i);
    }
    forall i: nat | i < count
      ensures FromBytes(memory[at + 4 * i..at + 4 * i + 4]) == TRAP_VALUE
        <==> memory[at + 4 * i..at + 4 * i + 4] == TrapWord()
    {
      IsTrapWord(memory[at + 4 * i..at + 4 * i + 4]);
    }
    if TrapsIntact(memory, data, size, allocSize) {
      forall i: nat | i < count ensures memory[at + 4 * i..at + 4 * i + 4] == TrapWord() {
        IntactTrap(memory, data, size, allocSize, i);
      }
    }
    if TrapWordsHold(memory, data, size, allocSize) {
      WordsMakeTraps(memory, at, count);
    }
  }

  lemma TrapWordBytes()
    ensures TrapWord() == [0xEF, 0xBE, 0xAD, 0xDE]
  {
    assert ToBytes(0xDE, 1) == [0xDE];
    assert ToBytes(0xDEAD, 2) == [0xAD, 0xDE];
    assert ToBytes(0xDE_ADBE, 3) == [0xBE, 0xAD, 0xDE];
  }

  /** A trapped byte is the byte of the trap value at its place in the word. */
  lemma TrapByteAt(memory: seq<Byte>, data: nat, size: nat, allocSize: nat, q: nat)
    requires size <= allocSize && data + allocSize <= |memory| && q < |memory|
    requires TrapWordsHold(memory, data, size, allocSize) && InTrap(data, size, allocSize, q)
    ensures memory[q] == [0xEF, 0xBE, 0xAD, 0xDE][(q - (data + size)) % 4]
  {
    var o := q - (data + size);
    var i := o / 4;
    var word := memory[data + size + 4 * i..data + size + 4 * i + 4];
    assert FromBytes(word) == TRAP_VALUE;
    hide FromBytes, TrapWordsHold, TrapWord;
    IsTrapWord(word);
    TrapWordBytes();
    assert memory[q] == word[o % 4];
  }

  // ----- setting and checking them -----

  /** Writes the traps, and nothing else. */
  method SetOutOfBoundsWriteTrap(heap: ByteAllocator, data: nat, size: nat, allocSize: nat)
    requires size <= allocSize && data + allocSize <= heap.bytes.Length
    modifies heap.bytes
    ensures TrapWordsHold(heap.bytes[..], data, size, allocSize)
    ensures forall q :: 0 <= q < heap.bytes.Length && !InTrap(data, size, allocSize, q) ==>
      heap.bytes[q] == old(heap.bytes[q])
    ensures heap.bytes[..] == Written(old(heap.bytes[..]), data + size, Traps(TrapCount(size, allocSize)))
  {
    hide TrapCount, Traps, TrapWord, Written, InTrap, FromBytes;
    ghost var was := heap.bytes[..];
    var trapCount := TrapCount(size, allocSize);
    var i := 0;
    NoTraps(was, data + size);
    while i < trapCount
      invariant i <= trapCount
      invariant heap.bytes[..] == Written(was, data + size, Traps(i))
    {
      TrapsNext(i);
      heap.Store(data + size + i * WORD_SIZE, TrapWord());
      WrittenTwice(was, data + size, Traps(i), TrapWord());
      i := i + 1;
    }
    ReadsWritten(was, data + size, Traps(trapCount));
    IntactIffWordsHold(heap.bytes[..], data, size, allocSize);
    forall q | 0 <= q < heap.bytes.Length && !InTrap(data, size, allocSize, q) ensures heap.bytes[q] == was[q] {
      TrapRange(data, size, allocSize, q);
      WrittenElsewhere(was, data + size, Traps(trapCount), q);
    }
  }

  /** Whether all trap words still hold the trap value. */
  method CheckOutOfBoundsWriteTrap(heap: ByteAllocator, data: nat, size: nat, allocSize: nat) returns (ok: bool)
    requires size <= allocSize && data + allocSize <= heap.bytes.Length
    ensures ok <==> TrapWordsHold(heap.bytes[..], data, size, allocSize)
  {
    hide TrapCount, FromBytes;
    var trapCount := TrapCount(size, allocSize);
    var i := 0;
    while i < trapCount
      invariant i <= trapCount
      invariant forall k: nat :: k < i ==>
        FromBytes(heap.bytes[data + size + 4 * k..data + size + 4 * k + 4]) == TRAP_VALUE
    {
      var at := data + size + i * WORD_SIZE;
      var observed := FromBytes(heap.bytes[at..at + WORD_SIZE]);
      TrapCountIsGreatest(size, allocSize, i);
      if observed != TRAP_VALUE {
        assert heap.bytes[..][at..at + WORD_SIZE] == heap.bytes[at..at + WORD_SIZE];
        return false;
      }
      i := i + 1;
    }
    forall k: nat | k < 4 && size + 4 * k + 4 <= allocSize
      ensures FromBytes(heap.bytes[..][data + size + 4 * k..data + size + 4 * k + 4]) == TRAP_VALUE
    {
      TrapCountIsGreatest(size, allocSize, k);
      var at := data + size + 4 * k;
      assert heap.bytes[..][at..at + 4] == heap.bytes[at..at + 4];
    }
    return true;
  }

  /** Any change to a trapped byte is detected, and changes elsewhere are not mistaken for one. */
  lemma TrapsDetect(memory: seq<Byte>, memory': seq<Byte>, data: nat, size: nat, allocSize: nat)
    requires size <= allocSize && data + allocSize <= |memory| && |memory'| == |memory|
    requires TrapWordsHold(memory, data, size, allocSize)
    ensures TrapWordsHold(memory', data, size, allocSize)
      <==> forall q :: 0 <= q < |memory| && InTrap(data, size, allocSize, q) ==> memory'[q] == memory[q]
  {
    hide TrapCount, Traps, InTrap, TrapWordsHold;
    IntactIffWordsHold(memory, data, size, allocSize);
    IntactIffWordsHold(memory', data, size, allocSize);
    var lo, hi := data + size, data + size + TrapCount(size, allocSize) * WORD_SIZE;
    forall q | 0 <= q < |memory| ensures InTrap(data, size, allocSize, q) <==> lo <= q < hi {
      TrapRange(data, size, allocSize, q);
    }
    if memory'[lo..hi] == memory[lo..hi] {
      forall q | lo <= q < hi ensures memory'[q] == memory[q] {
        assert memory'[lo..hi][q - lo] == memory[lo..hi][q - lo];
      }
    } else {
      var k :| 0 <= k < hi - lo && memory'[lo..hi][k] != memory[lo..hi][k];
      assert InTrap(data, size, allocSize, lo + k);
    }
  }
}
