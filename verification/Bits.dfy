/** Bits of natural numbers: shifts, OR, and the power of two that a number is measured by. */
module Bits {

  function Pow2(k: nat): (p: nat)
    ensures p >= 1
  {
    if k == 0 then 1 else 2 * Pow2(k - 1)
  }

  /** x >> k */
  function Shift(x: nat, k: nat): (s: nat)
    ensures s <= x
    decreases k
  {
    if k == 0 then x else Shift(x / 2, k - 1)
  }

  /** The k lowest bits. */
  function Low(x: nat, k: nat): (s: nat)
    ensures s <= x
    decreases k
  {
    if k == 0 then 0 else 2 * Low(x / 2, k - 1) + x % 2
  }

  predicate Bit(x: nat, k: nat) {
    Shift(x, k) % 2 == 1
  }

  /** x | y */
  function Or(x: nat, y: nat): nat
    decreases x + y
  {
    if x == 0 && y == 0 then 0
    else 2 * Or(x / 2, y / 2) + (if x % 2 == 1 || y % 2 == 1 then 1 else 0)
  }

  /** Number of bits up to the topmost one. */
  function Length(x: nat): (l: nat)
    ensures l == 0 <==> x == 0
  {
    if x == 0 then 0 else 1 + Length(x / 2)
  }

  ghost predicate IsPowerOf2(x: nat) {
    exists k :: x == Pow2(k)
  }

  function Max(a: nat, b: nat): nat {
    if a >= b then a else b
  }

  // ----- powers of two -----

  lemma {:induction false} PowMonotone(j: nat, k: nat)
    requires j <= k
    ensures Pow2(j) <= Pow2(k)
    decreases k
  {
    if j < k {
      PowMonotone(j, k - 1);
    }
  }

  lemma PowStrict(j: nat, k: nat)
    requires Pow2(j) < Pow2(k)
    ensures j < k
  {
    if k <= j {
      PowMonotone(k, j);
    }
  }

  lemma {:induction false} LengthBounds(x: nat)
    requires x > 0
    ensures Pow2(Length(x) - 1) <= x < Pow2(Length(x))
    decreases x
  {
    if x > 1 {
      LengthBounds(x / 2);
    }
  }

  lemma {:induction false} LengthOfPower(k: nat)
    ensures Length(Pow2(k)) == k + 1
    decreases k
  {
    if k > 0 {
      LengthOfPower(k - 1);
      assert Pow2(k) / 2 == Pow2(k - 1);
    }
  }

  lemma LengthMonotone(x: nat, y: nat)
    requires x <= y
    ensures Length(x) <= Length(y)
  {
    if x > 0 {
      LengthBounds(x);
      LengthBounds(y);
      PowStrict(Length(x) - 1, Length(y));
    }
  }

  /** A number below 2^k has at most k bits. */
  lemma LengthBelow(x: nat, k: nat)
    requires x < Pow2(k)
    ensures Length(x) <= k
  {
    if x > 0 {
      LengthBounds(x);
      PowStrict(Length(x) - 1, k);
    }
  }

  // ----- OR -----

  lemma {:induction false} OrZero(x: nat)
    ensures Or(x, 0) == x && Or(0, x) == x
    decreases x
  {
    if x > 0 {
      OrZero(x / 2);
    }
  }

  lemma OrHalves(x: nat, y: nat)
    ensures Or(x, y) / 2 == Or(x / 2, y / 2)
    ensures Or(x, y) % 2 == 1 <==> x % 2 == 1 || y % 2 == 1
  {
  }

  lemma {:induction false} OrShift(x: nat, y: nat, k: nat)
    ensures Shift(Or(x, y), k) == Or(Shift(x, k), Shift(y, k))
    decreases k
  {
    if k > 0 {
      OrHalves(x, y);
      OrShift(x / 2, y / 2, k - 1);
    }
  }

  lemma OrBit(x: nat, y: nat, k: nat)
    ensures Bit(Or(x, y), k) <==> Bit(x, k) || Bit(y, k)
  {
    hide Shift, Or;
    OrShift(x, y, k);
    OrHalves(Shift(x, k), Shift(y, k));
  }

  lemma {:induction false} OrLow(x: nat, y: nat, k: nat)
    ensures Low(Or(x, y), k) == Or(Low(x, k), Low(y, k))
    decreases k
  {
    if k > 0 {
      OrHalves(x, y);
      OrLow(x / 2, y / 2, k - 1);
      var u, v := Low(x, k), Low(y, k);
      assert u / 2 == Low(x / 2, k - 1) && v / 2 == Low(y / 2, k - 1);
      assert u % 2 == x % 2 && v % 2 == y % 2;
      OrHalves(u, v);
    } else {
      assert Or(0, 0) == 0;
    }
  }

  lemma {:induction false} OrLength(x: nat, y: nat)
    ensures Length(Or(x, y)) == Max(Length(x), Length(y))
    decreases x + y
  {
    if x + y > 0 {
      OrHalves(x, y);
      OrLength(x / 2, y / 2);
    }
  }

  lemma {:induction false} ShiftAdd(x: nat, a: nat, b: nat)
    ensures Shift(Shift(x, a), b) == Shift(x, a + b)
    decreases a
  {
    if a > 0 {
      ShiftAdd(x / 2, a - 1, b);
    }
  }

  lemma {:induction false} ShiftOnes(i: nat, k: nat)
    requires k <= i
    ensures Shift(Pow2(i) - 1, k) == Pow2(i - k) - 1
    decreases k
  {
    if k > 0 {
      assert (Pow2(i) - 1) / 2 == Pow2(i - 1) - 1;
      ShiftOnes(i - 1, k - 1);
    }
  }

  lemma {:induction false} ShiftLength(x: nat, k: nat)
    ensures Length(Shift(x, k)) == if k <= Length(x) then Length(x) - k else 0
    decreases k
  {
    if k > 0 {
      ShiftLength(x / 2, k - 1);
    }
  }

  /** OR with r ones fills in the r lowest bits. */
  lemma {:induction false} OrFill(u: nat, i: nat, r: nat)
    requires Shift(u, r) == Pow2(i) - 1
    ensures Or(u, Pow2(r) - 1) == Pow2(i + r) - 1
    decreases r
  {
    if r == 0 {
      OrZero(u);
    } else {
      assert (Pow2(r) - 1) / 2 == Pow2(r - 1) - 1 && (Pow2(r) - 1) % 2 == 1;
      OrFill(u / 2, i, r - 1);
      OrHalves(u, Pow2(r) - 1);
    }
  }
}
