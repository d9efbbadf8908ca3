/**
 * Exact decimal numbers in the representation java.math.BigDecimal uses:
 * an unscaled integer and a scale, standing for unscaled / 10^scale.
 * Equality of the datatype is BigDecimal.equals (1.0 and 1.00 differ);
 * comparison by numeric value is BigDecimal.compareTo.
 */
module Decimals {

  datatype Decimal = Decimal(unscaled: int, scale: nat)

  /** BigDecimal.ZERO */
  const Zero: Decimal := Decimal(0, 0)

  function Pow10(k: nat): (p: nat)
    ensures p >= 1
  {
    if k == 0 then 1 else 10 * Pow10(k - 1)
  }

  lemma {:induction false} Pow10Add(a: nat, b: nat)
    ensures Pow10(a + b) == Pow10(a) * Pow10(b)
  {
    if a > 0 {
      Pow10Add(a - 1, b);
      assert Pow10(a + b) == 10 * Pow10(a - 1 + b);
    }
  }

  function Max(a: nat, b: nat): nat { if a >= b then a else b }

  /** The unscaled value of `d` written at the larger scale `s`. */
  function Rescale(d: Decimal, s: nat): int
    requires s >= d.scale
  {
    d.unscaled * Pow10(s - d.scale)
  }

  /** BigDecimal.add: the result has the larger of the two scales and is exact. */
  function Add(a: Decimal, b: Decimal): (r: Decimal)
    ensures r.scale == Max(a.scale, b.scale)
    ensures ToReal(r) == ToReal(a) + ToReal(b)
  {
    var s := Max(a.scale, b.scale);
    var r := Decimal(Rescale(a, s) + Rescale(b, s), s);
    RescaleValue(a, s);
    RescaleValue(b, s);
    assert ToReal(r) == (Rescale(a, s) as real) / (Pow10(s) as real) + (Rescale(b, s) as real) / (Pow10(s) as real);
    r
  }

  /** The numeric value of a decimal. */
  function ToReal(d: Decimal): real
  {
    (d.unscaled as real) / (Pow10(d.scale) as real)
  }

  lemma RescaleValue(d: Decimal, s: nat)
    requires s >= d.scale
    ensures (Rescale(d, s) as real) / (Pow10(s) as real) == ToReal(d)
  {
    var k := s - d.scale;
    Pow10Add(d.scale, k);
    CancelInt(d.unscaled, Pow10(d.scale), Pow10(k));
  }

  lemma CancelInt(u: int, a: int, b: int)
    requires a > 0 && b > 0
    ensures ((u * b) as real) / ((a * b) as real) == (u as real) / (a as real)
  {
    RealOfProduct(u, b);
    RealOfProduct(a, b);
    CancelFactor(u as real, a as real, b as real);
  }

  lemma RealOfProduct(x: int, y: int)
    ensures (x * y) as real == (x as real) * (y as real)
  {
  }

  lemma CancelFactor(u: real, p: real, q: real)
    requires p > 0.0 && q > 0.0
    ensures (u * q) / (p * q) == u / p
  {
    var x := u / p;
    assert x * p == u;
    assert (x * q) * p == u * q;
    assert (u * q) / (p * q) == x;
  }

  lemma {:induction false} AddCommutes(a: Decimal, b: Decimal)
    ensures Add(a, b) == Add(b, a)
  {
  }

  lemma {:induction false} AddAssociates(a: Decimal, b: Decimal, c: Decimal)
    ensures Add(Add(a, b), c) == Add(a, Add(b, c))
  {
    SameValueSameScale(Add(Add(a, b), c), Add(a, Add(b, c)));
  }

  /** A value and a scale determine the representation. */
  lemma SameValueSameScale(x: Decimal, y: Decimal)
    requires x.scale == y.scale && ToReal(x) == ToReal(y)
    ensures x == y
  {
    var p := Pow10(x.scale) as real;
    assert ToReal(x) * p == x.unscaled as real;
    assert ToReal(y) * p == y.unscaled as real;
  }

  /** BigDecimal.ZERO is an exact identity of BigDecimal.add, scale included. */
  lemma {:induction false} AddZero(d: Decimal)
    ensures Add(Zero, d) == d && Add(d, Zero) == d
  {
  }

  /** At a shared scale, add just adds the unscaled values. */
  lemma AddSameScale(a: Decimal, b: Decimal)
    requires a.scale == b.scale
    ensures Add(a, b) == Decimal(a.unscaled + b.unscaled, a.scale)
  {
    assert Pow10(0) == 1;
  }

  /** BigDecimal.compareTo(a, b) <= 0: comparison by numeric value only. */
  predicate NumLe(a: Decimal, b: Decimal)
  {
    ToReal(a) <= ToReal(b)
  }

  /**
   * The order the median sorts by: numeric value, and among equal values
   * the smaller scale first. Unlike compareTo alone it is antisymmetric.
   */
  predicate SortLe(a: Decimal, b: Decimal)
  {
    ToReal(a) < ToReal(b) || (ToReal(a) == ToReal(b) && a.scale <= b.scale)
  }

  lemma SortLeAntisymmetric(a: Decimal, b: Decimal)
    requires SortLe(a, b) && SortLe(b, a)
    ensures a == b
  {
    SameValueSameScale(a, b);
  }

  lemma SortLeTotal(a: Decimal, b: Decimal)
    ensures SortLe(a, b) || SortLe(b, a)
  {
  }

  lemma SortLeTransitive(a: Decimal, b: Decimal, c: Decimal)
    requires SortLe(a, b) && SortLe(b, c)
    ensures SortLe(a, c)
  {
  }

  /** At one scale both orders compare the unscaled integers. */
  lemma SameScaleOrder(a: Decimal, b: Decimal)
    requires a.scale == b.scale
    ensures NumLe(a, b) <==> a.unscaled <= b.unscaled
    ensures SortLe(a, b) <==> a.unscaled <= b.unscaled
  {
    var p := Pow10(a.scale) as real;
    assert ToReal(a) * p == a.unscaled as real;
    assert ToReal(b) * p == b.unscaled as real;
  }

  /**
   * Integer division n / d rounded to the nearest integer, a tie going away
   * from zero (RoundingMode.HALF_UP). The two ensures pin the result down.
   */
  function RoundHalfUp(n: int, d: int): (q: int)
    requires d > 0
    ensures n >= 0 ==> -d <= 2 * (n - q * d) < d
    ensures n < 0 ==> -d < 2 * (n - q * d) <= d
  {
    if n >= 0 then
      var q := (2 * n + d) / (2 * d);
      DivBounds(2 * n + d, 2 * d);
      q
    else
      var q := (2 * (-n) + d) / (2 * d);
      DivBounds(2 * (-n) + d, 2 * d);
      -q
  }

  lemma NonNegProduct(a: int, b: int)
    requires a >= 0 && b >= 0
    ensures a * b >= 0
  {
  }

  lemma DivBounds(a: int, b: int)
    requires b > 0
    ensures b * (a / b) <= a < b * (a / b) + b
    ensures a >= 0 ==> a / b >= 0
  {
  }

  /** The scale BigDecimal.divide is asked for by the median: 10 digits. */
  const MedianScale: nat := 10

  /** a.divide(BigDecimal.valueOf(2), 10, RoundingMode.HALF_UP) */
  function Halve(a: Decimal): (r: Decimal)
    ensures r.scale == MedianScale
    ensures a.unscaled >= 0 ==>
      -2 * Pow10(a.scale) <= 2 * (a.unscaled * Pow10(MedianScale) - r.unscaled * (2 * Pow10(a.scale))) < 2 * Pow10(a.scale)
    ensures a.unscaled < 0 ==>
      -2 * Pow10(a.scale) < 2 * (a.unscaled * Pow10(MedianScale) - r.unscaled * (2 * Pow10(a.scale))) <= 2 * Pow10(a.scale)
  {
    Decimal(RoundHalfUp(a.unscaled * Pow10(MedianScale), 2 * Pow10(a.scale)), MedianScale)
  }

  /** BigDecimal.toBigInteger: the fractional part is discarded (toward zero). */
  function TruncateToInteger(d: Decimal): (i: int)
    ensures d.unscaled >= 0 ==> 0 <= Pow10(d.scale) * i <= d.unscaled < Pow10(d.scale) * i + Pow10(d.scale)
    ensures d.unscaled < 0 ==> Pow10(d.scale) * i - Pow10(d.scale) < d.unscaled <= Pow10(d.scale) * i <= 0
  {
    var p := Pow10(d.scale);
    if d.unscaled >= 0 then
      var q := d.unscaled / p;
      DivBounds(d.unscaled, p);
      NonNegProduct(p, q);
      q
    else
      var q := (-d.unscaled) / p;
      DivBounds(-d.unscaled, p);
      NonNegProduct(p, q);
      assert p * (-q) == -(p * q);
      -q
  }

  function Pow2(k: nat): (p: int)
    ensures p >= 1
  {
    if k == 0 then 1 else 2 * Pow2(k - 1)
  }

  /** The low `bits` bits of v read as a two's-complement number (a Java narrowing cast). */
  function Wrap(v: int, bits: nat): (w: int)
    requires bits >= 1
    ensures -Pow2(bits - 1) <= w < Pow2(bits - 1)
    ensures -Pow2(bits - 1) <= v < Pow2(bits - 1) ==> w == v
    ensures (w - v) % (2 * Pow2(bits - 1)) == 0
  {
    LowBits(v, Pow2(bits - 1))
  }

  /** v reduced into [-half, half) modulo 2 * half. */
  function LowBits(v: int, half: int): (w: int)
    requires half > 0
    ensures -half <= w < half
    ensures -half <= v < half ==> w == v
    ensures (w - v) % (2 * half) == 0
  {
    var m := 2 * half;
    ModOfSmall(v + half, m);
    ShiftedModCongruent(v, half, (v + half) % m - half);
    (v + half) % m - half
  }

  /** Shifting by half, reducing modulo 2 * half and shifting back changes v by a multiple of 2 * half. */
  lemma ShiftedModCongruent(v: int, half: int, w: int)
    requires half > 0 && w == (v + half) % (2 * half) - half
    ensures (w - v) % (2 * half) == 0
  {
    var m, x := 2 * half, v + half;
    assert w - v == x % m - x;
    DivMod(x, m);
    MultipleMod(-(x / m), m);
  }

  /** Euclidean division: the remainder minus the dividend is a multiple of the divisor. */
  lemma DivMod(x: int, m: int)
    requires m > 0
    ensures x % m - x == m * -(x / m)
  {
    assert x == m * (x / m) + x % m;
    assert m * -(x / m) == -(m * (x / m));
  }

  lemma MultipleMod(q: int, m: int)
    requires m > 0
    ensures (m * q) % m == 0
  {
    var x := m * q;
    var d := q - x / m;
    assert x % m == m * d;
  }

  lemma ModOfSmall(a: int, m: int)
    requires m > 0
    ensures 0 <= a % m < m
    ensures 0 <= a < m ==> a % m == a
  {
  }

}
