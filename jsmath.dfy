/**
 * JavaScript number operations that differ from Dafny's: `Math.trunc` and the
 * remainder operator `%`, which truncates toward zero (the result takes the sign
 * of the dividend), whereas Dafny's `%` is Euclidean.
 */
module JsMath {

  /** `Math.trunc(x)`: the integer part of `x`, rounding toward zero. */
  function Trunc(x: real): (t: int)
    ensures 0.0 <= x ==> t as real <= x < t as real + 1.0
    ensures x < 0.0 ==> t as real - 1.0 < x <= t as real
  {
    if x >= 0.0 then x.Floor else -((-x).Floor)
  }

  /** `x % m` on JavaScript numbers, for a positive modulus: `x` minus the truncated multiple of `m`. */
  function JsRem(x: real, m: real): (r: real)
    requires m > 0.0
    ensures 0.0 <= x ==> 0.0 <= r < m
    ensures x < 0.0 ==> -m < r <= 0.0
    ensures WholeMultiple(x - r, m)
  {
    var t := Trunc(x / m);
    TruncatedRemainder(x, m, t);
    MultipleOf(m, t);
    x - m * (t as real)
  }

  /** `d` is a whole number of `m`s. */
  predicate WholeMultiple(d: real, m: real)
    requires m > 0.0
  {
    (d / m).Floor as real == d / m
  }

  /** `m` times an integer is a whole number of `m`s. */
  lemma MultipleOf(m: real, t: int)
    requires m > 0.0
    ensures WholeMultiple(m * (t as real), m)
  {
    assert m * (t as real) / m == t as real;
  }

  /**
   * The sign rule and the bounds pin the remainder down: any value on the side of
   * `x`, less than `m` in size, that differs from `x` by whole `m`s is `JsRem(x, m)`.
   */
  lemma JsRemUnique(x: real, m: real, r: real)
    requires m > 0.0
    requires 0.0 <= x ==> 0.0 <= r < m
    requires x < 0.0 ==> -m < r <= 0.0
    requires WholeMultiple(x - r, m)
    ensures r == JsRem(x, m)
  {
    SameRemainder(x, m, r, JsRem(x, m));
  }

  /** Two remainders of `x` on the same side as `x`, less than `m` in size, are equal. */
  lemma SameRemainder(x: real, m: real, r: real, q: real)
    requires m > 0.0
    requires 0.0 <= x ==> 0.0 <= r < m && 0.0 <= q < m
    requires x < 0.0 ==> -m < r <= 0.0 && -m < q <= 0.0
    requires WholeMultiple(x - r, m) && WholeMultiple(x - q, m)
    ensures r == q
  {
    var a := MultipleForm(x - r, m);
    var b := MultipleForm(x - q, m);
    assert q - r == m * (a as real) - m * (b as real);
    Distribute(m, a, b);
    SmallMultiple(m, a - b, q - r);
  }

  /** A whole multiple of `m` is `m` times some integer. */
  lemma MultipleForm(d: real, m: real) returns (k: int)
    requires m > 0.0 && WholeMultiple(d, m)
    ensures d == m * (k as real)
  {
    k := (d / m).Floor;
    assert d == m * (d / m);
  }

  /** `m * a - m * b == m * (a - b)` for integers `a`, `b`. */
  lemma Distribute(m: real, a: int, b: int)
    ensures m * (a as real) - m * (b as real) == m * ((a - b) as real)
  {
  }

  /** A whole multiple of `m` strictly between `-m` and `m` is zero. */
  lemma SmallMultiple(m: real, k: int, d: real)
    requires m > 0.0 && d == m * (k as real) && -m < d < m
    ensures d == 0.0
  {
    assert k as real == d / m;
    QuotientBounds(d, m);
  }

  /** Dividing a value smaller than `m` in size by `m` gives a value strictly between -1 and 1. */
  lemma QuotientBounds(d: real, m: real)
    requires m > 0.0 && -m < d < m
    ensures -1.0 < d / m < 1.0
  {
  }

  /** Subtracting the truncated multiple of a positive `m` leaves less than `m`, on the side of `x`. */
  lemma TruncatedRemainder(x: real, m: real, t: int)
    requires m > 0.0
    requires 0.0 <= x / m ==> t as real <= x / m < t as real + 1.0
    requires x / m < 0.0 ==> t as real - 1.0 < x / m <= t as real
    ensures 0.0 <= x ==> 0.0 <= x - m * (t as real) < m
    ensures x < 0.0 ==> -m < x - m * (t as real) <= 0.0
  {
    var f := x / m - t as real;
    QuotientSign(x, m);
    RemainderAsFraction(x, m, t as real, f);
    RemainderBounds(x, m, t as real, f);
  }

  /** Dividing by a positive number keeps the sign. */
  lemma QuotientSign(x: real, m: real)
    requires m > 0.0
    ensures 0.0 <= x <==> 0.0 <= x / m
  {
  }

  /** What is left after subtracting `t` multiples of `m` is `m` times the fractional part `f` of the quotient. */
  lemma RemainderAsFraction(x: real, m: real, t: real, f: real)
    requires m > 0.0 && f == x / m - t
    ensures x - m * t == m * f
  {
  }

  /** The remainder bounds, from the fractional part's bounds, with no division in sight. */
  lemma RemainderBounds(x: real, m: real, t: real, f: real)
    requires m > 0.0 && x - m * t == m * f
    requires 0.0 <= x ==> 0.0 <= f < 1.0
    requires x < 0.0 ==> -1.0 < f <= 0.0
    ensures 0.0 <= x ==> 0.0 <= x - m * t < m
    ensures x < 0.0 ==> -m < x - m * t <= 0.0
  {
    if 0.0 <= x {
      ScaleFraction(m, f);
    } else {
      ScaleNegativeFraction(m, f);
    }
  }

  /** A fraction of a positive `m` lies in [0, m). */
  lemma ScaleFraction(m: real, f: real)
    requires m > 0.0 && 0.0 <= f < 1.0
    ensures 0.0 <= m * f < m
  {
    assert m * f < m * 1.0;
  }

  /** A negative fraction of a positive `m` lies in (-m, 0]. */
  lemma ScaleNegativeFraction(m: real, f: real)
    requires m > 0.0 && -1.0 < f <= 0.0
    ensures -m < m * f <= 0.0
  {
    ScaleFraction(m, -f);
    assert m * (-f) == -(m * f);
  }

  /** `a % m` on integral JavaScript numbers, for a positive modulus. */
  function JsIntRem(a: int, m: int): (r: int)
    requires m > 0
    ensures 0 <= a ==> r == a % m
    ensures a < 0 ==> -m < r <= 0
    ensures (a - r) % m == 0
    ensures -m < a < m ==> r == a
  {
    if a >= 0 then
      SmallRem(a, m);
      MultipleMod(m, a / m);
      a % m
    else
      SmallRem(-a, m);
      NegatedRemainder(a, m);
      -((-a) % m)
  }

  /** Adding back the remainder of `-a` to a negative `a` leaves a multiple of `m`. */
  lemma NegatedRemainder(a: int, m: int)
    requires m > 0 && a < 0
    ensures (a + (-a) % m) % m == 0
  {
    var q := (-a) / m;
    assert a + (-a) % m == m * (-q);
    MultipleMod(m, -q);
  }

  /** A multiple of `m` leaves no remainder. */
  lemma MultipleMod(m: int, k: int)
    requires m > 0
    ensures (m * k) % m == 0
  {
    var x := m * k;
    assert x == m * (x / m) + x % m;
    assert x % m == m * (k - x / m);
    ZeroMultiple(m, k - x / m);
  }

  /** A multiple of `m` in [0, m) is zero. */
  lemma ZeroMultiple(m: int, j: int)
    requires m > 0 && 0 <= m * j < m
    ensures j == 0
  {
  }

  lemma SmallRem(a: nat, m: int)
    requires m > 0
    ensures 0 <= a % m < m
    ensures a < m ==> a % m == a
  {
    if a < m {
      assert a == m * 0 + a;
    }
  }
}
