/** Java's 32-bit two's-complement `int` and the operators the statement applies to it. */
module JavaInt {

  const MIN: int := -0x8000_0000
  const MAX: int := 0x7fff_ffff
  const MODULUS: int := 0x1_0000_0000

  /** The values a Java `int` can hold. */
  type int32 = x: int | MIN <= x <= MAX

  /** Java's wrap-around: the int32 congruent to x modulo 2^32. A Java `+`, `-` or `*` on
      ints yields Wrap of the mathematical result. */
  function Wrap(x: int): int32
  {
    (x - MIN) % MODULUS + MIN
  }

  /** Java's `Math.max` on ints. */
  function Max(a: int32, b: int32): (r: int32)
    ensures r >= a && r >= b
    ensures r == a || r == b
  {
    if a >= b then a else b
  }

  /** Java's `/` on ints: the quotient truncated toward zero (which differs from Dafny's
      Euclidean `/` for a negative dividend), wrapped for the single overflowing case MIN / -1. */
  function Div(a: int32, b: int32): (r: int32)
    requires b != 0
    ensures a >= 0 && b > 0 ==> r == a / b && 0 <= r <= a
    ensures a < 0 && b > 0 ==> r == -((0 - a as int) / b)
  {
    var n: int := if a < 0 then 0 - a as int else a;
    var d: int := if b < 0 then 0 - b as int else b;
    var q := n / d;
    DivBounds(n, d);
    if (a < 0) == (b < 0) then
      if q <= MAX then WrapInRange(q); Wrap(q) else Wrap(q)
    else
      WrapInRange(-q); Wrap(-q)
  }

  /** Wrap leaves a value in range unchanged. */
  lemma WrapInRange(x: int)
    requires MIN <= x <= MAX
    ensures Wrap(x) == x
  {
  }

  /** Wrap differs from its argument by a multiple of 2^32. */
  lemma WrapOffset(x: int) returns (k: int)
    ensures Wrap(x) == x + k * MODULUS
  {
    k := -((x - MIN) / MODULUS);
  }

  /** Adding a multiple of 2^32 does not change the wrapped value. */
  lemma WrapShift(x: int, k: int)
    ensures Wrap(x + k * MODULUS) == Wrap(x)
  {
    var q, m := (x - MIN) / MODULUS, (x - MIN) % MODULUS;
    assert x + k * MODULUS - MIN == (q + k) * MODULUS + m;
  }

  /** Wrapping an operand of a sum first does not change the wrapped sum. */
  lemma WrapAdd(a: int, b: int)
    ensures Wrap(Wrap(a) + b) == Wrap(a + b)
    ensures Wrap(a + Wrap(b)) == Wrap(a + b)
    ensures Wrap(Wrap(a) + Wrap(b)) == Wrap(a + b)
  {
    var ka := WrapOffset(a);
    var kb := WrapOffset(b);
    assert Wrap(a) + b == (a + b) + ka * MODULUS;
    WrapShift(a + b, ka);
    assert a + Wrap(b) == (a + b) + kb * MODULUS;
    WrapShift(a + b, kb);
    assert Wrap(a) + Wrap(b) == (a + b) + (ka + kb) * MODULUS;
    WrapShift(a + b, ka + kb);
  }

  /** A Java `+=` onto an accumulator that holds the wrapped exact sum holds the wrapped
      exact sum with the new term added, however the term itself was wrapped. */
  lemma JavaAccumulate(acc: int32, exact: int, x: int)
    requires acc == Wrap(exact)
    ensures Wrap(acc + Wrap(x)) == Wrap(exact + x)
    ensures Wrap(acc + x) == Wrap(exact + x)
  {
    WrapAdd(exact, x);
  }

  /** A positive factor does not shrink a natural number. */
  lemma MulAtLeast(x: int, y: int)
    requires x >= 1 && y >= 0
    ensures x * y >= y
  {
  }

  /** Dividing a natural number by a positive one yields a natural number no larger. */
  lemma DivBounds(n: int, d: int)
    requires n >= 0 && d > 0
    ensures 0 <= n / d <= n
  {
    var q, m := n / d, n % d;
    assert n == d * q + m && 0 <= m < d;
    if q < 0 {
      MulAtLeast(d, -q);
    }
    MulAtLeast(d, q);
  }

  /** Division of natural numbers by a positive divisor is monotone in the dividend. */
  lemma DivMonotone(a: int, b: int, d: int)
    requires 0 <= a <= b && d > 0
    ensures a / d <= b / d
  {
    var qa, qb := a / d, b / d;
    assert a == d * qa + a % d && 0 <= a % d < d;
    assert b == d * qb + b % d && 0 <= b % d < d;
    if qa > qb {
      assert d * qa - d * qb == d * (qa - qb);
      MulAtLeast(d, qa - qb);
    }
  }
}
