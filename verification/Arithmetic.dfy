/** Overflow-checked arithmetic on 64-bit sizes (include/patton/detail/arithmetic.hpp). */
module Arithmetic {
  import opened ModArith

  const SIZE_LIMIT: int := 0x1_0000_0000_0000_0000
  const SIZE_MAX: int := SIZE_LIMIT - 1

  /** `std::size_t` on a 64-bit platform. */
  type Size = x: int | 0 <= x < SIZE_LIMIT

  /** What unsigned arithmetic leaves of an integer. */
  function Wrap(x: int): Size {
    x % SIZE_LIMIT
  }

  datatype ArithmeticResult = ArithmeticResult(value: Size, tooLarge: bool)

  function TryMultiplyUnsigned(a: Size, b: Size): ArithmeticResult {
    if b > 0 && a > SIZE_MAX / b then ArithmeticResult(0, true)
    else ArithmeticResult(Wrap(a * b), false)
  }

  function TryCeili(x: Size, d: Size): ArithmeticResult
    requires d != 0
  {
    if x == 0 then ArithmeticResult(0, false)
    else
      var dx := Wrap(Wrap(d - Wrap(x - 1) % d) - 1);
      if x > SIZE_MAX - dx then ArithmeticResult(0, true)
      else ArithmeticResult(Wrap(x + dx), false)
  }

  // ----- what they compute -----

  lemma QuotientBound(a: nat, b: nat, m: nat)
    requires b > 0
    ensures a > m / b <==> a * b > m
  {
    var q := m / b;
    assert q * b <= m < q * b + b;
    if a > q {
      MulMonotone(q + 1, a, b);
      assert (q + 1) * b == q * b + b;
    } else {
      MulMonotone(a, q, b);
    }
  }

  /** The product, or a failure exactly when the product does not fit. */
  lemma MultiplyIsExact(a: Size, b: Size)
    ensures TryMultiplyUnsigned(a, b).tooLarge <==> a * b > SIZE_MAX
    ensures !TryMultiplyUnsigned(a, b).tooLarge ==> TryMultiplyUnsigned(a, b).value == a * b
  {
    if b > 0 {
      QuotientBound(a, b, SIZE_MAX);
    }
    if 0 <= a * b <= SIZE_MAX {
      ModSmall(a * b, SIZE_LIMIT);
    } else {
      assert a * b >= 0;
    }
  }

  /** `c` is the least multiple of `d` that is no less than `x`. */
  ghost predicate IsCeiling(x: nat, d: nat, c: nat)
    requires d > 0
  {
    && c % d == 0
    && x <= c
    && forall m: nat :: m % d == 0 && x <= m ==> c <= m
  }

  /** The least multiple of `d` that is no less than `x`, in unbounded arithmetic. */
  function Ceiling(x: nat, d: nat): (c: nat)
    requires d > 0
    ensures x <= c < x + d
  {
    if x % d == 0 then x else x + (d - x % d)
  }

  lemma NoMultipleBetween(x: nat, d: nat, m: nat)
    requires d > 0 && m % d == 0 && x <= m
    ensures Ceiling(x, d) <= m
  {
    if x % d != 0 && m < x + (d - x % d) {
      DivModUnique(m, x / d, d, m - (x / d) * d);
    }
  }

  lemma CeilingIsLeast(x: nat, d: nat)
    requires d > 0
    ensures IsCeiling(x, d, Ceiling(x, d))
  {
    var c := Ceiling(x, d);
    if x % d != 0 {
      DivModUnique(c, x / d + 1, d, 0);
    }
    forall m: nat | m % d == 0 && x <= m ensures c <= m {
      NoMultipleBetween(x, d, m);
    }
  }

  lemma CeilingUnique(x: nat, d: nat, c: nat)
    requires d > 0 && IsCeiling(x, d, c)
    ensures c == Ceiling(x, d)
  {
    CeilingIsLeast(x, d);
  }

  /** The distance to the ceiling as `try_ceili` computes it, from x - 1. */
  lemma CeilingDistance(x: nat, d: nat)
    requires d > 0 && x > 0
    ensures Ceiling(x, d) == x + (d - (x - 1) % d - 1)
  {
    var q, r := (x - 1) / d, (x - 1) % d;
    assert x - 1 == q * d + r;
    if r == d - 1 {
      DivModUnique(x, q + 1, d, 0);
    } else {
      DivModUnique(x, q, d, r + 1);
    }
  }

  lemma NoWrap(x: int)
    requires 0 <= x <= SIZE_MAX
    ensures Wrap(x) == x
  {
    ModSmall(x, SIZE_LIMIT);
  }

  lemma WrapOnce(x: int)
    requires SIZE_LIMIT <= x < 2 * SIZE_LIMIT
    ensures Wrap(x) == x - SIZE_LIMIT
  {
    DivModUnique(x, 1, SIZE_LIMIT, x - SIZE_LIMIT);
  }

  /** Wrapping early or late makes no difference to a sum. */
  lemma WrapSum(x: int, y: int)
    ensures Wrap(Wrap(x) + y) == Wrap(x + y)
  {
    var q, r := (Wrap(x) + y) / SIZE_LIMIT, (Wrap(x) + y) % SIZE_LIMIT;
    assert x == (x / SIZE_LIMIT) * SIZE_LIMIT + Wrap(x);
    DivModUnique(x + y, x / SIZE_LIMIT + q, SIZE_LIMIT, r);
  }

  /** Neither does it to a product. */
  lemma WrapProduct(x: int, y: int)
    ensures Wrap(Wrap(x) * y) == Wrap(x * y)
  {
    var q, r := (Wrap(x) * y) / SIZE_LIMIT, (Wrap(x) * y) % SIZE_LIMIT;
    var p := x / SIZE_LIMIT;
    assert x == p * SIZE_LIMIT + Wrap(x);
    assert x * y == (p * y) * SIZE_LIMIT + Wrap(x) * y;
    DivModUnique(x * y, p * y + q, SIZE_LIMIT, r);
  }

  /** `try_ceili` returns the least multiple of d no less than x, or fails exactly when that does not fit. */
  lemma CeiliIsExact(x: Size, d: Size, c: nat)
    requires d != 0 && IsCeiling(x, d, c)
    ensures TryCeili(x, d).tooLarge <==> c > SIZE_MAX
    ensures !TryCeili(x, d).tooLarge ==> TryCeili(x, d).value == c
  {
    CeilingUnique(x, d, c);
    if x > 0 {
      CeilingDistance(x, d);
      var r := (x - 1) % d;
      NoWrap(x - 1);
      NoWrap(d - r);
      NoWrap(d - r - 1);
      if x <= SIZE_MAX - (d - r - 1) {
        NoWrap(x + (d - r - 1));
      }
    } else {
      ModSmall(0, d);
    }
  }
}
