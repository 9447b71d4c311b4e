/** Facts about `/` and `%` with a variable divisor that the verifier does not find unaided. */
module ModArith {

  lemma MulAtLeast(d: int, u: int)
    requires d >= 1 && u >= 0
    ensures d * u >= u
  {
    assert d * u == (d - 1) * u + u;
    assert (d - 1) * u >= 0;
  }

  lemma MulMonotone(a: int, b: int, p: nat)
    requires a <= b
    ensures a * p <= b * p
  {
    assert b * p == a * p + (b - a) * p;
  }

  lemma MulLess(a: int, b: int, p: nat)
    requires a * p < b * p
    ensures a < b
  {
    if b <= a {
      MulMonotone(b, a, p);
    }
  }

  /** Quotient and remainder are unique. */
  lemma DivModUnique(x: int, q: int, u: int, r: int)
    requires 0 <= r < u && x == q * u + r
    ensures x % u == r && x / u == q
  {
    var p, s := x / u, x % u;
    assert x == p * u + s && 0 <= s < u;
    assert (q - p) * u == s - r;
    if q < p {
      MulAtLeast(p - q, u);
    } else if q > p {
      MulAtLeast(q - p, u);
    }
  }

  /** Adding or subtracting a multiple of `u` does not change the remainder. */
  lemma ModShift(x: int, y: int, u: int)
    requires u > 0 && y % u == 0
    ensures (x + y) % u == x % u && (x - y) % u == x % u
  {
    var q, r, p := x / u, x % u, y / u;
    assert y == p * u;
    assert x + y == (q + p) * u + r;
    assert x - y == (q - p) * u + r;
    DivModUnique(x + y, q + p, u, r);
    DivModUnique(x - y, q - p, u, r);
  }

  lemma ModSelf(u: int)
    requires u > 0
    ensures u % u == 0
  {
    DivModUnique(u, 1, u, 0);
  }

  lemma ModSmall(x: int, u: int)
    requires 0 <= x < u
    ensures x % u == x
  {
    DivModUnique(x, 0, u, x);
  }

  /** A positive multiple of `u` is at least `u`. */
  lemma MultipleAtLeast(x: int, u: int)
    requires u > 0 && x > 0 && x % u == 0
    ensures x >= u
  {
    if x < u {
      ModSmall(x, u);
    }
  }

  lemma DividesTrans(a: int, b: int, c: int)
    requires b > 0 && c > 0 && a % b == 0 && b % c == 0
    ensures a % c == 0
  {
    var p, q := a / b, b / c;
    assert a == p * b && b == q * c;
    assert a == (p * q) * c;
    DivModUnique(a, p * q, c, 0);
  }
}
