/** Byte-addressed memory and the allocator that hands out blocks of it. */
module Memory {
  import opened Wrappers

  type Byte = x: int | 0 <= x < 256

  /** The object representation of an unsigned number of `n` bytes, least significant byte first. */
  function ToBytes(v: nat, n: nat): (s: seq<Byte>)
    ensures |s| == n
    decreases n
  {
    if n == 0 then [] else [v % 256] + ToBytes(v / 256, n - 1)
  }

  function FromBytes(s: seq<Byte>): nat {
    if s == [] then 0 else s[0] + 256 * FromBytes(s[1..])
  }

  function Pow256(n: nat): (p: nat)
    ensures p >= 1
  {
    if n == 0 then 1 else 256 * Pow256(n - 1)
  }

  /** A number that fits comes back from its bytes. */
  lemma {:induction false} BytesRoundTrip(v: nat, n: nat)
    requires v < Pow256(n)
    ensures FromBytes(ToBytes(v, n)) == v
    decreases n
  {
    if n > 0 {
      BytesRoundTrip(v / 256, n - 1);
      assert ToBytes(v, n)[1..] == ToBytes(v / 256, n - 1);
    }
  }

  /** Different bytes make different numbers. */
  lemma {:induction false} FromBytesInjective(s: seq<Byte>, t: seq<Byte>)
    requires |s| == |t| && FromBytes(s) == FromBytes(t)
    ensures s == t
    decreases |s|
  {
    if s != [] {
      FromBytesInjective(s[1..], t[1..]);
      assert s == [s[0]] + s[1..] && t == [t[0]] + t[1..];
    }
  }

  lemma AddressFits()
    ensures Pow256(4) == 0x1_0000_0000 && Pow256(8) == 0x1_0000_0000_0000_0000
  {
    assert Pow256(2) == 0x1_0000;
    assert Pow256(4) == 0x1_0000_0000;
    assert Pow256(6) == 0x1_0000_0000_0000;
  }

  /** Memory with `data` written at `address`. */
  function Written(memory: seq<Byte>, address: nat, data: seq<Byte>): (m: seq<Byte>)
    requires address + |data| <= |memory|
    ensures |m| == |memory|
  {
    memory[..address] + data + memory[address + |data|..]
  }

  lemma WrittenTwice(memory: seq<Byte>, address: nat, s: seq<Byte>, t: seq<Byte>)
    requires address + |s| + |t| <= |memory|
    ensures Written(Written(memory, address, s), address + |s|, t) == Written(memory, address, s + t)
  {
  }

  /** Writing changes no byte outside the written range. */
  lemma WrittenElsewhere(memory: seq<Byte>, address: nat, data: seq<Byte>, q: nat)
    requires address + |data| <= |memory| && q < |memory| && !(address <= q < address + |data|)
    ensures Written(memory, address, data)[q] == memory[q]
  {
  }

  lemma ReadsWritten(memory: seq<Byte>, address: nat, data: seq<Byte>)
    requires address + |data| <= |memory|
    ensures Written(memory, address, data)[address..address + |data|] == data
  {
  }

  lemma SliceOfSlice(s: seq<Byte>, lo: nat, hi: nat, a: nat, b: nat)
    requires lo <= hi <= |s| && a <= b <= hi - lo
    ensures s[lo..hi][a..b] == s[lo + a..lo + b]
  {
    var p, q := s[lo..hi][a..b], s[lo + a..lo + b];
    forall i | 0 <= i < |p| ensures p[i] == q[i] {
      assert p[i] == s[lo..hi][a + i];
    }
    assert p == q;
  }

  /** The allocator below an adaptor: `live` holds the address and the size of every block it has handed out. */
  class ByteAllocator {
    const bytes: array<Byte>
    var live: map<nat, nat>

    constructor (memory: array<Byte>)
      ensures bytes == memory && live == map[]
    {
      bytes := memory;
      live := map[];
    }

    /** A block at `address` overlaps no live block. */
    ghost predicate IsFree(address: nat, size: nat)
      reads this
    {
      && address + size <= bytes.Length
      && address !in live
      && forall b :: b in live ==> address + size <= b || b + live[b] <= address
    }

    /** `memcpy` to memory. */
    method Store(address: nat, data: seq<Byte>)
      requires address + |data| <= bytes.Length
      modifies bytes
      ensures bytes[..] == Written(old(bytes[..]), address, data)
    {
      forall i | 0 <= i < |data| {
        bytes[address + i] := data[i];
      }
    }

    /** Whether and where a block is found is not up to the callers: `where` is whatever the allocator answers. */
    method Allocate(size: nat, where: Option<nat>) returns (r: Option<nat>)
      requires where.Some? ==> IsFree(where.value, size)
      modifies this`live
      ensures r == where
      ensures live == if where.Some? then old(live)[where.value := size] else old(live)
    {
      if where.Some? {
        live := live[where.value := size];
      }
      r := where;
    }

    method Deallocate(address: nat, size: nat)
      requires address in live && live[address] == size
      modifies this`live
      ensures live == old(live) - {address}
    {
      live := live - {address};
    }
  }
}
