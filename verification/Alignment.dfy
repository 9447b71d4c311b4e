/**
Alignment values of 64 bits whose three top bits name alignments that are only known at run time
(include/patton/memory.hpp, include/patton/detail/memory.hpp, src/memory.cpp).
*/
module Alignment {
  import opened ModArith
  import opened Arithmetic
  import opened Bits

  const LARGE_PAGE_ALIGNMENT: nat := 0x8000_0000_0000_0000
  const PAGE_ALIGNMENT: nat := 0x4000_0000_0000_0000
  const CACHE_LINE_ALIGNMENT: nat := 0x2000_0000_0000_0000

  const TOP_BIT: nat := LARGE_PAGE_ALIGNMENT

  /**
  The sizes found at run time (0: no large pages), and the compile-time lower bound of the cache line size,
  `std::hardware_constructive_interference_size`.
  */
  datatype Hardware = Hardware(cacheLine: nat, page: nat, largePage: nat, interference: nat)

  /** `x |= x >> j` for d == 2^j */
  function SmearStep(x: nat, d: nat): nat
    requires d > 0
  {
    Or(x, x / d)
  }

  function Floor2p(x: nat): nat {
    var x1 := SmearStep(x, 2);
    var x2 := SmearStep(x1, 0x4);
    var x3 := SmearStep(x2, 0x10);
    var x4 := SmearStep(x3, 0x100);
    var x5 := SmearStep(x4, 0x1_0000);
    var x6 := SmearStep(x5, 0x1_0000_0000);
    Wrap(x6 + 1) / 2
  }

  function RawAlignmentInBytes(a: nat): nat {
    Max(1, Floor2p(a))
  }

  /** `a & flag` is not 0, for a flag of one bit. */
  predicate Has(a: nat, flag: nat)
    requires flag > 0
  {
    a / flag % 2 == 1
  }

  /** `a & special_alignments`, as a number of three bits. */
  function Special(a: nat): nat {
    a / CACHE_LINE_ALIGNMENT
  }

  /** `a & ~special_alignments` */
  function Basic(a: nat): nat {
    a % CACHE_LINE_ALIGNMENT
  }

  function LookupSpecialAlignments(hw: Hardware, a: nat): nat {
    var a1 := if Has(a, LARGE_PAGE_ALIGNMENT) then Or(a, hw.largePage) else a;
    var a2 := if Has(a1, LARGE_PAGE_ALIGNMENT) || Has(a1, PAGE_ALIGNMENT) then Or(a1, hw.page) else a1;
    var a3 := if Has(a2, CACHE_LINE_ALIGNMENT) then Or(a2, hw.cacheLine) else a2;
    Basic(a3)
  }

  function AlignmentInBytes(hw: Hardware, a: nat): (bytes: nat)
    ensures bytes >= 1
  {
    Max(1, Floor2p(LookupSpecialAlignments(hw, a)))
  }

  /** The basic part of a provided alignment: special alignments also provide that of a cache line. */
  function BasicProvided(hw: Hardware, provided: nat): nat {
    if Special(provided) != 0 then Or(Basic(provided), hw.interference) else Basic(provided)
  }

  predicate ProvidesStaticAlignment(hw: Hardware, provided: nat, requested: nat) {
    && RawAlignmentInBytes(BasicProvided(hw, provided)) >= RawAlignmentInBytes(Basic(requested))
    && Special(provided) >= Special(requested)
  }

  predicate ProvidesDynamicAlignment(hw: Hardware, provided: nat, requested: nat) {
    AlignmentInBytes(hw, provided) >= AlignmentInBytes(hw, requested)
  }

  // ----- powers of two as numbers -----

  lemma DivideTwice(x: nat, p: nat)
    requires p > 0
    ensures x / 2 / p == x / (2 * p)
  {
    var y := x / 2;
    DivModUnique(x, y / p, 2 * p, 2 * (y % p) + x % 2);
  }

  lemma {:induction false} ShiftIsDivision(x: nat, k: nat)
    ensures Shift(x, k) == x / Pow2(k)
    decreases k
  {
    if k > 0 {
      ShiftIsDivision(x / 2, k - 1);
      DivideTwice(x, Pow2(k - 1));
    }
  }

  lemma HalfRemainder(x: nat, p: nat)
    requires p >= 1
    ensures x % (2 * p) == 2 * (x / 2 % p) + x % 2
  {
    var q, r := x / 2 / p, x / 2 % p;
    assert x / 2 == q * p + r;
    assert x == q * (2 * p) + (2 * r + x % 2);
    DivModUnique(x, q, 2 * p, 2 * r + x % 2);
  }

  lemma {:induction false} LowIsRemainder(x: nat, k: nat)
    ensures Low(x, k) == x % Pow2(k)
    decreases k
  {
    if k > 0 {
      LowIsRemainder(x / 2, k - 1);
      HalfRemainder(x, Pow2(k - 1));
    }
  }

  lemma {:induction false} PowSum(a: nat, b: nat)
    ensures Pow2(a + b) == Pow2(a) * Pow2(b)
    decreases a
  {
    if a > 0 {
      PowSum(a - 1, b);
    }
  }

  lemma PowSmall()
    ensures Pow2(0) == 1 && Pow2(1) == 2 && Pow2(2) == 4 && Pow2(3) == 8 && Pow2(4) == 0x10 && Pow2(8) == 0x100
  {
  }

  lemma PowLarge()
    ensures Pow2(16) == 0x1_0000 && Pow2(32) == 0x1_0000_0000
    ensures Pow2(61) == CACHE_LINE_ALIGNMENT && Pow2(62) == PAGE_ALIGNMENT && Pow2(63) == LARGE_PAGE_ALIGNMENT
  {
    hide Pow2;
    PowSmall();
    PowSum(8, 8);
    PowSum(16, 16);
    PowSum(32, 16);
    PowSum(48, 8);
    PowSum(56, 4);
    PowSum(60, 1);
    PowSum(60, 2);
    PowSum(60, 3);
  }

  // ----- floor_2p -----

  /** The j topmost bits of a number, or all of them if there are no more than j, are ones. */
  ghost predicate TopOnes(x: nat, j: nat) {
    if j >= Length(x) then x == Pow2(Length(x)) - 1
    else Shift(x, Length(x) - j) == Pow2(j) - 1
  }

  lemma SmearLength(x: nat, j: nat)
    ensures Length(Or(x, Shift(x, j))) == Length(x)
  {
    ShiftLength(x, j);
    OrLength(x, Shift(x, j));
  }

  lemma {:induction false} ShiftZero(k: nat)
    ensures Shift(0, k) == 0
    decreases k
  {
    if k > 0 {
      ShiftZero(k - 1);
    }
  }

  lemma SmearFills(x: nat, j: nat, l: nat, r: nat)
    requires l >= j + r && r <= j && Shift(x, l - j) == Pow2(j) - 1
    ensures Shift(Or(x, Shift(x, j)), l - j - r) == Pow2(j + r) - 1
  {
    hide Shift, Or, Pow2;
    var m := l - j - r;
    OrShift(x, Shift(x, j), m);
    ShiftAdd(x, j, m);
    ShiftAdd(x, l - j, j - r);
    ShiftOnes(j, j - r);
    ShiftAdd(x, m, r);
    OrFill(Shift(x, m), j, r);
  }

  lemma ShiftNone(x: nat)
    ensures Shift(x, 0) == x
  {
  }

  /** All bits are ones already. */
  lemma SmearOnes(x: nat, j: nat)
    requires j >= Length(x) && x == Pow2(Length(x)) - 1
    ensures Or(x, Shift(x, j)) == x
  {
    hide Length, Pow2, Or, Shift;
    var l := Length(x);
    assert Pow2(0) == 1 by { PowSmall(); }
    ShiftOnes(l, l);
    ShiftAdd(x, l, j - l);
    ShiftZero(j - l);
    OrZero(x);
  }

  lemma ShiftDoubles(x: nat, j: nat)
    requires j >= 1 && TopOnes(x, j)
    ensures TopOnes(Or(x, Shift(x, j)), 2 * j)
  {
    hide Length, Pow2, Or, Shift;
    var l := Length(x);
    SmearLength(x, j);
    if j >= l {
      SmearOnes(x, j);
    } else {
      var r := if j <= l - j then j else l - j;
      SmearFills(x, j, l, r);
      ShiftNone(Or(x, Shift(x, j)));
    }
  }

  /** One line of the bit smearing keeps the length and doubles the number of leading ones. */
  lemma SmearDoubles(x: nat, j: nat, d: nat)
    requires j >= 1 && d == Pow2(j) && TopOnes(x, j)
    ensures Length(SmearStep(x, d)) == Length(x) && TopOnes(SmearStep(x, d), 2 * j)
  {
    hide Shift, Or, Pow2, Length, TopOnes;
    ShiftIsDivision(x, j);
    SmearLength(x, j);
    ShiftDoubles(x, j);
  }

  /** The greatest power of two that is at most x; 0 for 0. */
  function Floor(x: nat): (p: nat)
    ensures p == 0 <==> x == 0
  {
    if x == 0 then 0 else Pow2(Length(x) - 1)
  }

  lemma OneLeadingOne(x: nat)
    ensures TopOnes(x, 1)
  {
    PowSmall();
    if Length(x) > 1 {
      ShiftLength(x, Length(x) - 1);
      LengthBounds(Shift(x, Length(x) - 1));
    } else if Length(x) == 1 {
      LengthBounds(x);
    }
  }

  lemma SmearAll(x: nat)
    ensures var x6 := SmearStep(SmearStep(SmearStep(SmearStep(SmearStep(SmearStep(
        x, 2), 0x4), 0x10), 0x100), 0x1_0000), 0x1_0000_0000);
      Length(x6) == Length(x) && TopOnes(x6, 64)
  {
    hide SmearStep, Pow2, Length, TopOnes;
    PowSmall();
    PowLarge();
    OneLeadingOne(x);
    var x1 := SmearStep(x, 2);
    SmearDoubles(x, 1, 2);
    var x2 := SmearStep(x1, 0x4);
    SmearDoubles(x1, 2, 0x4);
    var x3 := SmearStep(x2, 0x10);
    SmearDoubles(x2, 4, 0x10);
    var x4 := SmearStep(x3, 0x100);
    SmearDoubles(x3, 8, 0x100);
    var x5 := SmearStep(x4, 0x1_0000);
    SmearDoubles(x4, 16, 0x1_0000);
    SmearDoubles(x5, 32, 0x1_0000_0000);
  }

  lemma SmearedFloor(x: nat, m: nat)
    requires x < TOP_BIT && Length(m) == Length(x) && TopOnes(m, 64)
    ensures Wrap(m + 1) / 2 == Floor(x)
  {
    hide Length, Wrap;
    var l := Length(x);
    PowLarge();
    LengthBelow(x, 63);
    PowMonotone(l, 63);
    NoWrap(Pow2(l));
  }

  /** Below 2^63, the bit smearing computes the greatest power of two that is at most x. */
  lemma Floor2pIsFloor(x: nat)
    requires x < TOP_BIT
    ensures Floor2p(x) == Floor(x)
  {
    hide SmearStep, Length, TopOnes, Wrap;
    SmearAll(x);
    SmearedFloor(x, SmearStep(SmearStep(SmearStep(SmearStep(SmearStep(SmearStep(
      x, 2), 0x4), 0x10), 0x100), 0x1_0000), 0x1_0000_0000));
  }

  /** For 0 < x < 2^63, `floor_2p` returns the greatest power of two that is at most x. */
  lemma FloorIsGreatest(x: nat)
    requires 0 < x < TOP_BIT
    ensures IsPowerOf2(Floor2p(x)) && Floor2p(x) <= x
    ensures forall p: nat :: IsPowerOf2(p) && p <= x ==> p <= Floor2p(x)
  {
    hide Floor2p, Length;
    Floor2pIsFloor(x);
    LengthBounds(x);
    forall p: nat | IsPowerOf2(p) && p <= x ensures p <= Floor2p(x) {
      var k :| p == Pow2(k);
      PowStrict(k, Length(x));
      PowMonotone(k, Length(x) - 1);
    }
  }

  lemma FloorOfPower(p: nat)
    requires IsPowerOf2(p)
    ensures Floor(p) == p
  {
    var k :| p == Pow2(k);
    LengthOfPower(k);
  }

  lemma FloorMonotone(x: nat, y: nat)
    requires x <= y
    ensures Floor(x) <= Floor(y)
  {
    LengthMonotone(x, y);
    if x > 0 {
      PowMonotone(Length(x) - 1, Length(y) - 1);
    }
  }

  /** OR acts on the powers of two below its operands as the maximum. */
  lemma FloorOr(x: nat, y: nat)
    ensures Floor(Or(x, y)) == Max(Floor(x), Floor(y))
  {
    hide Length, Or, Pow2;
    OrLength(x, y);
    if x > 0 && y > 0 {
      var l, k := Length(x), Length(y);
      if l <= k {
        PowMonotone(l - 1, k - 1);
      } else {
        PowMonotone(k - 1, l - 1);
      }
    }
  }

  // ----- the special bits -----

  lemma OrFlag(x: nat, y: nat, k: nat, flag: nat)
    requires flag == Pow2(k)
    ensures Has(Or(x, y), flag) <==> Has(x, flag) || Has(y, flag)
  {
    hide Shift, Or, Pow2;
    OrBit(x, y, k);
    ShiftIsDivision(x, k);
    ShiftIsDivision(y, k);
    ShiftIsDivision(Or(x, y), k);
  }

  lemma OrFlags(x: nat, y: nat)
    ensures Has(Or(x, y), LARGE_PAGE_ALIGNMENT) <==> Has(x, LARGE_PAGE_ALIGNMENT) || Has(y, LARGE_PAGE_ALIGNMENT)
    ensures Has(Or(x, y), PAGE_ALIGNMENT) <==> Has(x, PAGE_ALIGNMENT) || Has(y, PAGE_ALIGNMENT)
    ensures Has(Or(x, y), CACHE_LINE_ALIGNMENT) <==> Has(x, CACHE_LINE_ALIGNMENT) || Has(y, CACHE_LINE_ALIGNMENT)
  {
    hide Has, Or, Pow2;
    PowLarge();
    OrFlag(x, y, 63, LARGE_PAGE_ALIGNMENT);
    OrFlag(x, y, 62, PAGE_ALIGNMENT);
    OrFlag(x, y, 61, CACHE_LINE_ALIGNMENT);
  }

  lemma OrBasic(x: nat, y: nat)
    ensures Basic(Or(x, y)) == Or(Basic(x), Basic(y))
  {
    hide Low, Or, Pow2;
    PowLarge();
    OrLow(x, y, 61);
    LowIsRemainder(x, 61);
    LowIsRemainder(y, 61);
    LowIsRemainder(Or(x, y), 61);
  }

  /** The special bits as a number are in order like the alignments they stand for. */
  lemma SpecialBits(a: Size)
    ensures Special(a) == (if Has(a, LARGE_PAGE_ALIGNMENT) then 4 else 0) + (if Has(a, PAGE_ALIGNMENT) then 2 else 0)
                          + (if Has(a, CACHE_LINE_ALIGNMENT) then 1 else 0)
  {
  }

  // ----- alignment_in_bytes -----

  lemma InBytes(hw: Hardware, a: nat)
    ensures LookupSpecialAlignments(hw, a) < TOP_BIT
    ensures AlignmentInBytes(hw, a) == Max(1, Floor(LookupSpecialAlignments(hw, a)))
  {
    hide Floor2p, Floor, Has, Or;
    Floor2pIsFloor(LookupSpecialAlignments(hw, a));
  }

  /** Whatever the sizes, an alignment in bytes is a power of two. */
  lemma AlignmentIsPowerOf2(hw: Hardware, a: nat)
    ensures IsPowerOf2(AlignmentInBytes(hw, a))
  {
    hide AlignmentInBytes, LookupSpecialAlignments, Length;
    InBytes(hw, a);
    assert Pow2(0) == 1;
  }

  /** A power of two that does not reach the special bits. */
  ghost predicate IsSize(p: nat) {
    IsPowerOf2(p) && p < CACHE_LINE_ALIGNMENT
  }

  /** What the library assumes of the hardware, and partly checks (src/new.cpp). */
  ghost predicate Plausible(hw: Hardware) {
    && IsSize(hw.cacheLine) && hw.interference <= hw.cacheLine
    && IsSize(hw.page) && hw.page % hw.cacheLine == 0
    && (hw.largePage != 0 ==> IsSize(hw.largePage) && hw.largePage % hw.page == 0)
  }

  /** Hardware with cache lines of 64 bytes, pages of 4 KB and large pages of 2 MB is plausible. */
  lemma TypicalHardware(hw: Hardware)
    requires hw == Hardware(0x40, 0x1000, 0x20_0000, 0x40)
    ensures Plausible(hw)
  {
    hide Pow2;
    PowSmall();
    PowSum(2, 4);
    PowSum(8, 4);
    PowSum(12, 8);
    PowSum(20, 1);
    assert hw.cacheLine == Pow2(6) && hw.page == Pow2(12) && hw.largePage == Pow2(21);
  }

  lemma SizesInOrder(hw: Hardware)
    requires Plausible(hw)
    ensures 0 < hw.cacheLine <= hw.page && (hw.largePage != 0 ==> hw.page <= hw.largePage)
  {
    hide Pow2;
    MultipleAtLeast(hw.page, hw.cacheLine);
    if hw.largePage != 0 {
      MultipleAtLeast(hw.largePage, hw.page);
    }
  }

  /** The size that the special bits of an alignment stand for. */
  function SpecialSize(hw: Hardware, a: nat): nat {
    if Has(a, LARGE_PAGE_ALIGNMENT) then Max(hw.largePage, hw.page)
    else if Has(a, PAGE_ALIGNMENT) then hw.page
    else if Has(a, CACHE_LINE_ALIGNMENT) then hw.cacheLine
    else 0
  }

  /** `a` or, if the bit is set, `a` with the size: what one branch of the lookup does. */
  function WithSize(given: bool, a: nat, size: nat): nat {
    if given then Or(a, size) else a
  }

  predicate SameFlags(a: nat, b: nat) {
    && (Has(a, LARGE_PAGE_ALIGNMENT) <==> Has(b, LARGE_PAGE_ALIGNMENT))
    && (Has(a, PAGE_ALIGNMENT) <==> Has(b, PAGE_ALIGNMENT))
    && (Has(a, CACHE_LINE_ALIGNMENT) <==> Has(b, CACHE_LINE_ALIGNMENT))
  }

  lemma NoFlags(size: nat)
    requires size < CACHE_LINE_ALIGNMENT
    ensures !Has(size, LARGE_PAGE_ALIGNMENT) && !Has(size, PAGE_ALIGNMENT) && !Has(size, CACHE_LINE_ALIGNMENT)
    ensures Basic(size) == size
  {
  }

  /** OR-ing in a size leaves the special bits as they are, and raises the basic part to the size. */
  lemma WithSizeParts(given: bool, a: nat, size: nat)
    requires size == 0 || IsSize(size)
    ensures SameFlags(WithSize(given, a, size), a)
    ensures Floor(Basic(WithSize(given, a, size))) == Max(Floor(Basic(a)), if given then size else 0)
  {
    hide Pow2, Has, Or, Length, Basic;
    if given {
      if size != 0 {
        FloorOfPower(size);
      }
      NoFlags(size);
      OrFlags(a, size);
      OrBasic(a, size);
      FloorOr(Basic(a), size);
    }
  }

  lemma BasicFloor(a: nat)
    ensures Basic(a) < TOP_BIT && Floor2p(Basic(a)) == Floor(Basic(a))
  {
    Floor2pIsFloor(Basic(a));
  }

  /** An alignment in bytes is the greater of the basic part and of the size the special bits stand for. */
  lemma AlignmentParts(hw: Hardware, a: nat)
    requires Plausible(hw)
    ensures AlignmentInBytes(hw, a) == Max(RawAlignmentInBytes(Basic(a)), SpecialSize(hw, a))
  {
    hide Pow2, Floor, Floor2p, Has, Or, Basic, AlignmentInBytes;
    var l, p, c := Has(a, LARGE_PAGE_ALIGNMENT), Has(a, PAGE_ALIGNMENT), Has(a, CACHE_LINE_ALIGNMENT);
    var a1 := WithSize(l, a, hw.largePage);
    WithSizeParts(l, a, hw.largePage);
    var a2 := WithSize(l || p, a1, hw.page);
    WithSizeParts(l || p, a1, hw.page);
    var a3 := WithSize(c, a2, hw.cacheLine);
    WithSizeParts(c, a2, hw.cacheLine);
    assert LookupSpecialAlignments(hw, a) == Basic(a3);
    InBytes(hw, a);
    BasicFloor(a);
    SizesInOrder(hw);
  }

  lemma RawOr(a: nat, b: nat)
    ensures RawAlignmentInBytes(Basic(Or(a, b)))
      == Max(RawAlignmentInBytes(Basic(a)), RawAlignmentInBytes(Basic(b)))
  {
    hide Floor, Floor2p, Or, Basic;
    OrBasic(a, b);
    BasicFloor(a);
    BasicFloor(b);
    BasicFloor(Or(a, b));
    FloorOr(Basic(a), Basic(b));
  }

  /** For all alignments, OR combines them to the greater one. */
  lemma AlignmentOr(hw: Hardware, a: nat, b: nat)
    requires Plausible(hw)
    ensures AlignmentInBytes(hw, Or(a, b)) == Max(AlignmentInBytes(hw, a), AlignmentInBytes(hw, b))
  {
    hide Pow2, Floor, Floor2p, Has, Or, Basic, AlignmentInBytes;
    AlignmentParts(hw, a);
    AlignmentParts(hw, b);
    AlignmentParts(hw, Or(a, b));
    OrFlags(a, b);
    SizesInOrder(hw);
    RawOr(a, b);
  }

  // ----- static and dynamic alignment -----

  lemma SpecialSizeMonotone(hw: Hardware, a: Size, b: Size)
    requires Plausible(hw) && Special(a) >= Special(b)
    ensures SpecialSize(hw, a) >= SpecialSize(hw, b)
  {
    hide Has, Special, Pow2;
    SpecialBits(a);
    SpecialBits(b);
    SizesInOrder(hw);
  }

  lemma SpecialAtLeastCacheLine(hw: Hardware, a: Size)
    requires Plausible(hw) && Special(a) != 0
    ensures SpecialSize(hw, a) >= hw.cacheLine
  {
    hide Has, Special, Pow2;
    SpecialBits(a);
    SizesInOrder(hw);
  }

  lemma OrBelow(x: nat, y: nat)
    requires x < TOP_BIT && y < TOP_BIT
    ensures Or(x, y) < TOP_BIT
  {
    hide Pow2, Or, Length;
    PowLarge();
    LengthBelow(x, 63);
    LengthBelow(y, 63);
    OrLength(x, y);
    if Or(x, y) > 0 {
      LengthBounds(Or(x, y));
      PowMonotone(Length(Or(x, y)), 63);
    }
  }

  /** The alignment that the basic part of a provided alignment counts for. */
  lemma BasicProvidedParts(hw: Hardware, a: nat)
    requires hw.interference < TOP_BIT
    ensures RawAlignmentInBytes(BasicProvided(hw, a))
      == Max(RawAlignmentInBytes(Basic(a)), if Special(a) != 0 then Floor(hw.interference) else 0)
  {
    hide Special, Floor, Floor2p, Or, Basic;
    BasicFloor(a);
    if Special(a) != 0 {
      FloorOr(Basic(a), hw.interference);
      OrBelow(Basic(a), hw.interference);
      Floor2pIsFloor(Or(Basic(a), hw.interference));
    }
  }

  lemma PlausibleInterference(hw: Hardware)
    requires Plausible(hw)
    ensures hw.interference < TOP_BIT && Floor(hw.interference) <= hw.cacheLine
  {
    hide Pow2, Floor;
    FloorMonotone(hw.interference, hw.cacheLine);
    FloorOfPower(hw.cacheLine);
  }

  /** What is guaranteed at compile time holds at run time. */
  lemma StaticIsSound(hw: Hardware, provided: Size, requested: Size)
    requires Plausible(hw) && ProvidesStaticAlignment(hw, provided, requested)
    ensures ProvidesDynamicAlignment(hw, provided, requested)
  {
    hide AlignmentInBytes, RawAlignmentInBytes, BasicProvided, SpecialSize, Basic, Special, Floor, Pow2;
    AlignmentParts(hw, provided);
    AlignmentParts(hw, requested);
    SpecialSizeMonotone(hw, provided, requested);
    PlausibleInterference(hw);
    BasicProvidedParts(hw, provided);
    if Special(provided) != 0 {
      SpecialAtLeastCacheLine(hw, provided);
    }
  }

  lemma {:induction false} PowDivides(j: nat, k: nat)
    requires j <= k
    ensures Pow2(k) % Pow2(j) == 0
    decreases k
  {
    if j == k {
      ModSelf(Pow2(k));
    } else {
      PowDivides(j, k - 1);
      ModShift(Pow2(k - 1), Pow2(k - 1), Pow2(j));
    }
  }

  /** Among powers of two, the smaller ones divide the greater ones. */
  lemma PowerDividesPower(p: nat, q: nat)
    requires IsPowerOf2(p) && IsPowerOf2(q) && p >= q
    ensures q > 0 && p % q == 0
  {
    hide Pow2;
    var j :| p == Pow2(j);
    var k :| q == Pow2(k);
    if k <= j {
      PowDivides(k, j);
    } else {
      PowMonotone(j, k);
      ModSelf(p);
    }
  }

  // ----- static alignment is exact -----

  /** Whatever the cache line and page sizes turn out to be, `provided` is at least `requested` in bytes. */
  ghost predicate AlwaysProvides(interference: nat, provided: nat, requested: nat) {
    forall hw: Hardware :: Plausible(hw) && hw.interference == interference ==>
      AlignmentInBytes(hw, provided) >= AlignmentInBytes(hw, requested)
  }

  /** Hardware without large pages on which cache lines and pages are no larger than is known at compile time. */
  lemma SmallestHardware(i: nat)
    requires IsSize(i)
    ensures Plausible(Hardware(i, i, 0, i))
  {
    ModSelf(i);
  }

  lemma RawIsPositive(a: nat)
    ensures RawAlignmentInBytes(a) >= 1
  {
    hide Floor2p;
  }

  lemma BasicBytes(hw: Hardware, a: Size)
    requires Plausible(hw)
    ensures Special(Basic(a)) == 0 && AlignmentInBytes(hw, Basic(a)) == RawAlignmentInBytes(Basic(a))
    ensures AlignmentInBytes(hw, Basic(a)) <= AlignmentInBytes(hw, a)
  {
    hide AlignmentInBytes, RawAlignmentInBytes, Pow2, Has;
    NoFlags(Basic(a));
    AlignmentParts(hw, a);
    AlignmentParts(hw, Basic(a));
    assert RawAlignmentInBytes(Basic(a)) >= 1 by { RawIsPositive(Basic(a)); }
  }

  /** On the smallest hardware, an alignment in bytes is what the static comparison counts it for. */
  lemma SmallestBytes(hw: Hardware, provided: Size)
    requires IsSize(hw.interference)
    ensures var i := hw.interference;
      AlignmentInBytes(Hardware(i, i, 0, i), provided) == RawAlignmentInBytes(BasicProvided(hw, provided))
  {
    hide AlignmentInBytes, RawAlignmentInBytes, BasicProvided, Pow2, Has, Special, Basic, Floor;
    var i := hw.interference;
    SmallestHardware(i);
    AlignmentParts(Hardware(i, i, 0, i), provided);
    BasicProvidedParts(hw, provided);
    FloorOfPower(i);
    SpecialBits(provided);
  }

  lemma SameStatic(hw: Hardware, hw': Hardware, provided: nat, requested: nat)
    requires hw.interference == hw'.interference
    ensures ProvidesStaticAlignment(hw, provided, requested) <==> ProvidesStaticAlignment(hw', provided, requested)
  {
  }

  /**
  What is guaranteed at compile time is exactly what holds at run time on all hardware with this lower bound of the
  cache line size, for the basic part of the request; special alignments are compared as numbers.
  */
  lemma StaticIsExact(hw: Hardware, provided: Size, requested: Size)
    requires IsSize(hw.interference)
    ensures ProvidesStaticAlignment(hw, provided, requested)
      <==> AlwaysProvides(hw.interference, provided, Basic(requested)) && Special(provided) >= Special(requested)
  {
    hide AlignmentInBytes, RawAlignmentInBytes, BasicProvided, Pow2, Basic, Special;
    var i := hw.interference;
    var least := Hardware(i, i, 0, i);
    SmallestHardware(i);
    SmallestBytes(hw, provided);
    BasicBytes(least, requested);
    if ProvidesStaticAlignment(hw, provided, requested) {
      forall hw': Hardware | Plausible(hw') && hw'.interference == i
        ensures AlignmentInBytes(hw', provided) >= AlignmentInBytes(hw', Basic(requested))
      {
        SameStatic(hw, hw', provided, requested);
        StaticIsSound(hw', provided, requested);
        BasicBytes(hw', requested);
      }
    }
  }

  const HUGE: nat := 0x1000_0000_0000_0000

  lemma HugeIsSize()
    ensures IsSize(HUGE) && HUGE == Pow2(60)
  {
    hide Pow2;
    PowSmall();
    PowLarge();
    PowSum(60, 1);
  }

  /** Hardware on which the sizes that `requested` stands for are huge, but not those that `provided` stands for. */
  lemma TellingHardware(i: nat, provided: Size, requested: Size) returns (hw: Hardware)
    requires IsSize(i) && i < HUGE && Special(provided) < Special(requested)
    requires Special(requested) == 1 || Special(requested) == 2 || Special(requested) == 4
    ensures Plausible(hw) && hw.interference == i
    ensures SpecialSize(hw, requested) == HUGE && SpecialSize(hw, provided) < HUGE
  {
    hide Pow2, Has, Special;
    HugeIsSize();
    SpecialBits(provided);
    SpecialBits(requested);
    PowerDividesPower(HUGE, i);
    ModSelf(HUGE);
    ModSelf(i);
    hw := if Special(requested) == 1 then Hardware(HUGE, HUGE, 0, i)
          else if Special(requested) == 2 then Hardware(i, HUGE, 0, i)
          else Hardware(i, i, HUGE, i);
  }

  /**
  For a request with at most one special bit, and basic parts below 2^60, the compile-time answer is yes exactly if
  the alignment is provided on all hardware.
  */
  lemma StaticIsComplete(hw: Hardware, provided: Size, requested: Size)
    requires IsSize(hw.interference) && hw.interference < HUGE && RawAlignmentInBytes(Basic(provided)) < HUGE
    requires Special(requested) == 0 || Special(requested) == 1 || Special(requested) == 2 || Special(requested) == 4
    ensures ProvidesStaticAlignment(hw, provided, requested)
      <==> AlwaysProvides(hw.interference, provided, requested)
  {
    hide AlignmentInBytes, RawAlignmentInBytes, BasicProvided, Pow2, Basic, Special, SpecialSize;
    var i := hw.interference;
    StaticIsExact(hw, provided, requested);
    if ProvidesStaticAlignment(hw, provided, requested) {
      forall hw': Hardware | Plausible(hw') && hw'.interference == i
        ensures AlignmentInBytes(hw', provided) >= AlignmentInBytes(hw', requested)
      {
        SameStatic(hw, hw', provided, requested);
        StaticIsSound(hw', provided, requested);
      }
    }
    if AlwaysProvides(i, provided, requested) {
      forall hw': Hardware | Plausible(hw') && hw'.interference == i
        ensures AlignmentInBytes(hw', provided) >= AlignmentInBytes(hw', Basic(requested))
      {
        BasicBytes(hw', requested);
      }
      if Special(provided) < Special(requested) {
        var telling := TellingHardware(i, provided, requested);
        AlignmentParts(telling, provided);
        AlignmentParts(telling, requested);
      }
    }
  }

  /** With two special bits the compile-time answer may be no although the alignment is always provided. */
  lemma PageLacksCacheLine(hw: Hardware)
    ensures !ProvidesStaticAlignment(hw, PAGE_ALIGNMENT, PAGE_ALIGNMENT + CACHE_LINE_ALIGNMENT)
    ensures AlwaysProvides(hw.interference, PAGE_ALIGNMENT, PAGE_ALIGNMENT + CACHE_LINE_ALIGNMENT)
  {
    hide AlignmentInBytes, RawAlignmentInBytes, Pow2;
    forall hw': Hardware | Plausible(hw')
      ensures AlignmentInBytes(hw', PAGE_ALIGNMENT) >= AlignmentInBytes(hw', PAGE_ALIGNMENT + CACHE_LINE_ALIGNMENT)
    {
      AlignmentParts(hw', PAGE_ALIGNMENT);
      AlignmentParts(hw', PAGE_ALIGNMENT + CACHE_LINE_ALIGNMENT);
    }
  }

  /** Large pages provide the alignment of pages, and these that of cache lines. */
  lemma SpecialInOrder(hw: Hardware)
    requires IsSize(hw.interference)
    ensures ProvidesStaticAlignment(hw, LARGE_PAGE_ALIGNMENT, PAGE_ALIGNMENT)
    ensures ProvidesStaticAlignment(hw, PAGE_ALIGNMENT, CACHE_LINE_ALIGNMENT)
    ensures !ProvidesStaticAlignment(hw, CACHE_LINE_ALIGNMENT, PAGE_ALIGNMENT)
    ensures !ProvidesStaticAlignment(hw, PAGE_ALIGNMENT, LARGE_PAGE_ALIGNMENT)
  {
    hide RawAlignmentInBytes, BasicProvided, Pow2, Floor;
    BasicProvidedParts(hw, LARGE_PAGE_ALIGNMENT);
    BasicProvidedParts(hw, PAGE_ALIGNMENT);
  }

  // ----- what the alignments are in bytes -----

  /** The special alignments are those of the hardware; without large pages, theirs is that of pages. */
  lemma SpecialAlignments(hw: Hardware)
    requires Plausible(hw)
    ensures AlignmentInBytes(hw, CACHE_LINE_ALIGNMENT) == hw.cacheLine
    ensures AlignmentInBytes(hw, PAGE_ALIGNMENT) == hw.page
    ensures AlignmentInBytes(hw, LARGE_PAGE_ALIGNMENT) == if hw.largePage == 0 then hw.page else hw.largePage
  {
    hide AlignmentInBytes, Pow2, Floor2p;
    SizesInOrder(hw);
    BasicFloor(CACHE_LINE_ALIGNMENT);
    AlignmentParts(hw, CACHE_LINE_ALIGNMENT);
    AlignmentParts(hw, PAGE_ALIGNMENT);
    AlignmentParts(hw, LARGE_PAGE_ALIGNMENT);
  }

  /** An ordinary alignment is rounded down to a power of two. */
  lemma OrdinaryBytes(hw: Hardware, a: Size)
    requires Plausible(hw) && 0 < a < CACHE_LINE_ALIGNMENT
    ensures IsPowerOf2(AlignmentInBytes(hw, a)) && AlignmentInBytes(hw, a) <= a
    ensures forall p: nat :: IsPowerOf2(p) && p <= a ==> p <= AlignmentInBytes(hw, a)
  {
    hide AlignmentInBytes, Pow2, Floor2p, Has;
    assert Basic(a) == a;
    BasicBytes(hw, a);
    FloorIsGreatest(a);
    assert Pow2(0) == 1 by { PowSmall(); }
    assert IsPowerOf2(1);
  }

  predicate IsAligned(address: nat, bytes: nat)
    requires bytes > 0
  {
    address % bytes == 0
  }

  /** The run-time comparison says whether every address that is aligned as provided is aligned as requested. */
  lemma DynamicIsExact(hw: Hardware, provided: nat, requested: nat)
    ensures ProvidesDynamicAlignment(hw, provided, requested)
      <==> forall address: nat ::
             IsAligned(address, AlignmentInBytes(hw, provided)) ==> IsAligned(address, AlignmentInBytes(hw, requested))
  {
    hide AlignmentInBytes, Pow2;
    var p, r := AlignmentInBytes(hw, provided), AlignmentInBytes(hw, requested);
    AlignmentIsPowerOf2(hw, provided);
    AlignmentIsPowerOf2(hw, requested);
    if p >= r {
      PowerDividesPower(p, r);
      forall address: nat | IsAligned(address, p) ensures IsAligned(address, r) {
        DividesTrans(address, p, r);
      }
    } else {
      ModSelf(p);
      assert IsAligned(p, p);
      ModSmall(p, r);
      assert !IsAligned(p, r);
    }
  }

  lemma StaticReflexive(hw: Hardware, a: nat)
    requires hw.interference < TOP_BIT
    ensures ProvidesStaticAlignment(hw, a, a)
  {
    hide RawAlignmentInBytes, BasicProvided, Basic, Special, Floor;
    BasicProvidedParts(hw, a);
  }

  lemma StaticTransitive(hw: Hardware, a: nat, b: nat, c: nat)
    requires hw.interference < TOP_BIT
    requires ProvidesStaticAlignment(hw, a, b) && ProvidesStaticAlignment(hw, b, c)
    ensures ProvidesStaticAlignment(hw, a, c)
  {
    hide RawAlignmentInBytes, BasicProvided, Basic, Special, Floor;
    BasicProvidedParts(hw, a);
    BasicProvidedParts(hw, b);
  }

  /**
  An adaptor that leaves aligning to the allocator below it, because that one provides the alignment statically,
  hands out suitably aligned addresses.
  */
  lemma StaticallyAlignedAddress(hw: Hardware, provided: Size, requested: Size, address: nat)
    requires Plausible(hw) && ProvidesStaticAlignment(hw, provided, requested)
    requires AlignmentInBytes(hw, provided) > 0 && address % AlignmentInBytes(hw, provided) == 0
    ensures AlignmentInBytes(hw, requested) > 0 && address % AlignmentInBytes(hw, requested) == 0
  {
    hide AlignmentInBytes, ProvidesStaticAlignment, Plausible, Pow2;
    StaticIsSound(hw, provided, requested);
    AlignmentIsPowerOf2(hw, provided);
    AlignmentIsPowerOf2(hw, requested);
    PowerDividesPower(AlignmentInBytes(hw, provided), AlignmentInBytes(hw, requested));
    DividesTrans(address, AlignmentInBytes(hw, provided), AlignmentInBytes(hw, requested));
  }

  lemma OrdinaryAlignment(hw: Hardware, p: Size)
    requires Plausible(hw) && IsSize(p)
    ensures AlignmentInBytes(hw, p) == p
  {
    hide AlignmentInBytes, Pow2, Has, Basic, Floor2p, Length;
    AlignmentParts(hw, p);
    NoFlags(p);
    BasicFloor(p);
    FloorOfPower(p);
  }

  /** A buffer's alignment, which includes that of its element type, is a multiple of the latter. */
  lemma CoversElementAlignment(hw: Hardware, alignment: Size, elementAlignment: Size)
    requires Plausible(hw) && IsSize(elementAlignment)
    ensures AlignmentInBytes(hw, Or(alignment, elementAlignment)) % elementAlignment == 0
  {
    hide AlignmentInBytes, Or, Pow2, Has, Basic, Floor2p, Floor, RawAlignmentInBytes;
    AlignmentOr(hw, alignment, elementAlignment);
    OrdinaryAlignment(hw, elementAlignment);
    AlignmentIsPowerOf2(hw, alignment);
    PowerDividesPower(AlignmentInBytes(hw, Or(alignment, elementAlignment)), elementAlignment);
  }
}
