/**
 * binary32 by its encoding (section 3.4 of IEEE 754-2019) and roundTiesToEven
 * (section 4.3.1), on exact rationals.
 *
 * A magnitude word m is the word without its sign. Finite magnitudes are the
 * integers below INFINITE, in the order of the values they encode, so the
 * neighbours of m are m - 1 and m + 1. Values are counted in units of 2^-149.
 */
module Binary32 {
  import opened Powers
  import opened Words

  const INFINITE: int := 0x7f80_0000
  const QUIET_NAN: int := 0x7fc0_0000

  /** The encoded value in units of 2^-149; INFINITE stands for the first value past the range, 2^128. */
  function Coefficient(m: nat): nat
    requires m <= INFINITE
  {
    if m < 0x80_0000 then m else Scale(0x80_0000 + m % 0x80_0000, m / 0x80_0000 - 1)
  }

  predicate IsNaN(w: u32) { Magnitude(w) > INFINITE }

  predicate IsInfinite(w: u32) { Magnitude(w) == INFINITE }

  predicate IsFinite(w: u32) { Magnitude(w) < INFINITE }

  predicate IsZero(w: u32) { Magnitude(w) == 0 }

  /** The exact signed value of a finite word, in units of 2^-149. */
  function Exact(w: u32): int
    requires IsFinite(w)
  {
    if Negative(w) then 0 - Coefficient(Magnitude(w)) else Coefficient(Magnitude(w))
  }

  function Abs(x: int): (r: nat)
    ensures r == x || r == 0 - x
  {
    if x < 0 then -x else x
  }

  /** q is x / p rounded to the nearest integer, ties to even. */
  predicate NearestEven(x: int, p: int, q: int) {
    && -p <= 2 * (x - q * p) <= p
    && (2 * (x - q * p) == p || 2 * (x - q * p) == -p ==> q % 2 == 0)
  }

  /**
   * m is the magnitude that roundTiesToEven assigns to the positive rational
   * num / den: num / den lies between the midpoints on either side of m, and on
   * a midpoint only if m is even. Past the last midpoint the result is infinite.
   */
  predicate Nearest(num: nat, den: nat, m: nat)
  {
    && m <= INFINITE
    && (m > 0 ==>
          var low := (Coefficient(m - 1) + Coefficient(m)) * den;
          low < 2 * num || (low == 2 * num && m % 2 == 0))
    && (m < INFINITE ==>
          var high := (Coefficient(m) + Coefficient(m + 1)) * den;
          2 * num < high || (2 * num == high && m % 2 == 0))
  }

  /**
   * The word w is the exact value num / den rounded once, keeping its sign
   * also when the magnitude underflows to zero.
   */
  predicate RoundsTo(num: int, den: nat, w: u32) {
    && Nearest(Abs(num), den, Magnitude(w))
    && Negative(w) == (num < 0)
  }

  /** A sum of exact values with both signs of zero accounted for (section 6.3). */
  predicate RoundedSum(num: int, den: nat, zeroIsNegative: bool, w: u32) {
    if num == 0 then w == SignBit(zeroIsNegative) else RoundsTo(num, den, w)
  }

  lemma CoefficientNormal(j: nat, q: nat)
    requires 0x80_0000 <= q < 0x100_0000
    requires j * 0x80_0000 + q <= INFINITE
    ensures Coefficient(j * 0x80_0000 + q) == Scale(q, j)
  {
    hide Scale;
    DivModUnique(j * 0x80_0000 + q, 0x80_0000, j + 1, q - 0x80_0000);
  }

  lemma CoefficientAt(j: nat, q: nat)
    requires q <= 0x100_0000 && (j == 0 || 0x80_0000 <= q)
    requires j * 0x80_0000 + q <= INFINITE
    ensures Coefficient(j * 0x80_0000 + q) == Scale(q, j)
  {
    if q < 0x80_0000 {
      assert Scale(q, 0) == q;
    } else if q < 0x100_0000 {
      CoefficientNormal(j, q);
    } else {
      CoefficientNormal(j + 1, 0x80_0000);
      assert j * 0x80_0000 + q == (j + 1) * 0x80_0000 + 0x80_0000;
      assert Scale(0x100_0000, j) == Scale(0x80_0000, j + 1);
    }
  }

  /** Every magnitude is a significand at the scale its exponent field names. */
  lemma Decompose(m: nat) returns (j: nat, q: nat)
    requires m < INFINITE
    ensures m == j * 0x80_0000 + q && j <= 253
    ensures q < 0x100_0000 && (j == 0 || 0x80_0000 <= q)
    ensures Coefficient(m) == Scale(q, j)
  {
    if m < 0x80_0000 {
      j, q := 0, m;
    } else {
      j, q := m / 0x80_0000 - 1, 0x80_0000 + m % 0x80_0000;
    }
  }

  lemma CoefficientStep(m: nat)
    requires m < INFINITE
    ensures Coefficient(m) < Coefficient(m + 1)
  {
    var j, q := Decompose(m);
    CoefficientAt(j, q + 1);
    MulStrict(q, q + 1, Pow2(j));
  }

  lemma {:induction false} CoefficientMonotone(a: nat, b: nat)
    requires a <= b <= INFINITE
    ensures Coefficient(a) <= Coefficient(b)
    ensures a < b ==> Coefficient(a) < Coefficient(b)
    decreases b
  {
    if a < b {
      CoefficientMonotone(a, b - 1);
      CoefficientStep(b - 1);
    }
  }

  lemma CoefficientPositive(m: nat)
    requires m <= INFINITE
    ensures Coefficient(m) == 0 <==> m == 0
  {
    CoefficientMonotone(0, m);
  }

  /** The rounding is a function: at most one magnitude qualifies. */
  lemma NearestUnique(num: nat, den: nat, a: nat, b: nat)
    requires den > 0 && Nearest(num, den, a) && Nearest(num, den, b)
    ensures a == b
  {
    NearestOrdered(num, den, a, b);
    NearestOrdered(num, den, b, a);
  }

  lemma NearestOrdered(num: nat, den: nat, a: nat, b: nat)
    requires den > 0 && Nearest(num, den, a) && Nearest(num, den, b)
    ensures a >= b
  {
    hide Coefficient, Nearest;
    if a < b {
      NearestBelow(num, den, a, b);
      NearestAbove(num, den, b);
      CoefficientMonotone(a, b - 1);
      CoefficientMonotone(a + 1, b);
      MidpointOrder(num, den, Coefficient(a) + Coefficient(a + 1), Coefficient(b - 1) + Coefficient(b));
    }
  }

  lemma NearestBelow(num: nat, den: nat, a: nat, b: nat)
    requires Nearest(num, den, a) && Nearest(num, den, b) && a < b
    ensures 2 * num <= (Coefficient(a) + Coefficient(a + 1)) * den
    ensures 2 * num == (Coefficient(a) + Coefficient(a + 1)) * den ==> a % 2 == 0
  {
    hide Coefficient;
  }

  lemma NearestAbove(num: nat, den: nat, b: nat)
    requires Nearest(num, den, b) && b > 0
    ensures b <= INFINITE
    ensures (Coefficient(b - 1) + Coefficient(b)) * den <= 2 * num
    ensures (Coefficient(b - 1) + Coefficient(b)) * den == 2 * num ==> b % 2 == 0
  {
    hide Coefficient;
  }

  lemma MidpointOrder(num: nat, den: nat, high: nat, low: nat)
    requires den > 0 && 2 * num <= high * den && low * den <= 2 * num
    ensures low <= high
  {
    if high < low {
      MulStrict(high, low, den);
    }
  }

  /** So is the rounding of a signed sum: these results pin down one word. */
  lemma RoundedSumUnique(num: int, den: nat, zeroIsNegative: bool, a: u32, b: u32)
    requires den > 0 && RoundedSum(num, den, zeroIsNegative, a) && RoundedSum(num, den, zeroIsNegative, b)
    ensures a == b
  {
    hide Nearest, And, Shr;
    SignMask(a);
    SignMask(b);
    if num != 0 {
      NearestUnique(Abs(num), den, Magnitude(a), Magnitude(b));
    }
  }

  /** No finite magnitude is closer to the exact value than the rounded one. */
  lemma NearestIsClosest(num: nat, den: nat, m: nat, other: nat)
    requires den > 0 && Nearest(num, den, m) && m < INFINITE && other < INFINITE
    ensures Abs(num - Coefficient(m) * den) <= Abs(num - Coefficient(other) * den)
  {
    var here, there := Coefficient(m), Coefficient(other);
    if other < m {
      CoefficientMonotone(other, m - 1);
      var before := Coefficient(m - 1);
      CoefficientMonotone(m - 1, m);
      MulMonotone(there, before, den);
      MulMonotone(before, here, den);
      MulDistributes(before, here, den);
    } else if m < other {
      CoefficientMonotone(m + 1, other);
      var after := Coefficient(m + 1);
      CoefficientMonotone(m, m + 1);
      MulMonotone(after, there, den);
      MulMonotone(here, after, den);
      MulDistributes(here, after, den);
    }
  }

  /** Representable values round to themselves. */
  lemma NearestOfRepresentable(m: nat, den: nat)
    requires m < INFINITE && den > 0
    ensures Nearest(Coefficient(m) * den, den, m)
  {
    var here := Coefficient(m);
    if m > 0 {
      CoefficientStep(m - 1);
      MulStrict(Coefficient(m - 1) + here, here + here, den);
      MulDistributes(here, here, den);
    }
    CoefficientStep(m);
    MulStrict(here + here, here + Coefficient(m + 1), den);
    MulDistributes(here, here, den);
  }

  lemma NearestScale(num: nat, den: nat, k: nat, m: nat)
    requires k > 0
    ensures Nearest(num * k, den * k, m) <==> Nearest(num, den, m)
  {
    if 0 < m <= INFINITE {
      ScaledComparison(Coefficient(m - 1) + Coefficient(m), num, den, k);
    }
    if m < INFINITE {
      ScaledComparison(Coefficient(m) + Coefficient(m + 1), num, den, k);
    }
  }

  lemma ScaledComparison(c: nat, num: nat, den: nat, k: nat)
    requires k > 0
    ensures c * (den * k) < 2 * (num * k) <==> c * den < 2 * num
    ensures c * (den * k) == 2 * (num * k) <==> c * den == 2 * num
  {
    MulAssoc(c, den, k);
    MulAssoc(2, num, k);
    MulCancel(c * den, 2 * num, k);
  }

  /** Only the ratio of num and den matters. */
  lemma NearestRatio(num: nat, den: nat, num': nat, den': nat, m: nat)
    requires den > 0 && den' > 0 && num * den' == num' * den
    requires Nearest(num, den, m)
    ensures Nearest(num', den', m)
  {
    hide Nearest;
    NearestScale(num, den, den', m);
    NearestScale(num', den', den, m);
  }

  /** The word at scale j with significand q, overflowing into INFINITE. */
  function Assemble(j: nat, q: nat): nat {
    if j * 0x80_0000 + q < INFINITE then j * 0x80_0000 + q else INFINITE
  }

  /**
   * One rounding at the right scale is the rounding of the value: x / 2^d in
   * units of 2^(j-149) is either a normal significand or a subnormal one.
   */
  lemma AssembleNearest(x: nat, d: nat, j: nat, q: nat)
    requires NearestEven(x, Pow2(d), q)
    requires x < 0x100_0000 * Pow2(d)
    requires j == 0 || 0x80_0000 * Pow2(d) <= x
    ensures Nearest(Scale(x, j), Pow2(d), Assemble(j, q))
    ensures q <= 0x100_0000 && (j > 0 ==> q >= 0x80_0000)
  {
    var p := Pow2(d);
    AssembleRange(x, p, j, q);
    if j * 0x80_0000 + q < INFINITE {
      AssembleFinite(x, p, j, q);
    } else {
      AssembleOverflow(x, p, j, q);
    }
  }

  lemma AssembleRange(x: nat, p: nat, j: nat, q: int)
    requires p > 0 && NearestEven(x, p, q)
    requires x < 0x100_0000 * p
    requires j == 0 || 0x80_0000 * p <= x
    ensures 0 <= q <= 0x100_0000 && (j > 0 ==> q >= 0x80_0000)
  {
    hide NearestEven;
    NearestEvenBetween(x, p, q, 0, 0x100_0000);
    NearestEvenBetween(x, p, q, 0x80_0000, 0x100_0000);
  }

  lemma AssembleFinite(x: nat, p: nat, j: nat, q: nat)
    requires p > 0 && NearestEven(x, p, q)
    requires x < 0x100_0000 * p
    requires j == 0 || 0x80_0000 * p <= x
    requires q <= 0x100_0000 && (j > 0 ==> q >= 0x80_0000)
    requires j * 0x80_0000 + q < INFINITE
    ensures Nearest(Scale(x, j), p, j * 0x80_0000 + q)
  {
    if j * 0x80_0000 + q > 0 {
      AssembleBelow(x, p, j, q);
    }
    AssembleAbove(x, p, j, q);
  }

  /** Rounding stays between the integers the quotient lies between. */
  lemma NearestEvenBetween(x: int, p: int, q: int, low: int, high: int)
    requires p > 0 && NearestEven(x, p, q)
    ensures low * p <= x ==> low <= q
    ensures x <= high * p ==> q <= high
  {
    if q < low {
      MulMonotone(q + 1, low, p);
      MulStep(q, p);
    }
    if high < q {
      MulMonotone(high + 1, q, p);
      MulStep(high, p);
    }
  }

  /** Both midpoints around q, as the rounding of x / p to q orders them. */
  lemma Neighbours(x: nat, p: nat, q: nat)
    requires p > 0 && NearestEven(x, p, q)
    ensures (2 * q - 1) * p < 2 * x || ((2 * q - 1) * p == 2 * x && q % 2 == 0)
    ensures 2 * x < (2 * q + 1) * p || (2 * x == (2 * q + 1) * p && q % 2 == 0)
  {
    MulDistributes(2 * q, 1, p);
    MulAssoc(2, q, p);
  }

  /** Scaling the midpoint c / 2 and the value x alike keeps their order. */
  lemma ScaledMidpoint(c: int, x: nat, p: nat, j: nat)
    ensures Scale(c, j) * p < 2 * Scale(x, j) <==> c * p < 2 * x
    ensures Scale(c, j) * p == 2 * Scale(x, j) <==> c * p == 2 * x
  {
    var s := Pow2(j);
    MulAssoc(c, s, p);
    MulAssoc(c, p, s);
    MulAssoc(2, x, s);
    MulCancel(c * p, 2 * x, s);
  }

  lemma StrictBelow(x: nat, p: nat, q: nat, j: nat, before: nat)
    requires p > 0 && before < Scale(q, j) && q * p <= x
    ensures (before + Scale(q, j)) * p < 2 * Scale(x, j)
  {
    ScaleSum(q, q, j);
    ScaledMidpoint(2 * q, x, p, j);
    MulAssoc(2, q, p);
    MulStrict(before + Scale(q, j), Scale(2 * q, j), p);
  }

  lemma StrictAbove(x: nat, p: nat, q: nat, j: nat, after: nat)
    requires p > 0 && Scale(q, j) < after && x <= q * p
    ensures 2 * Scale(x, j) < (Scale(q, j) + after) * p
  {
    ScaleSum(q, q, j);
    ScaledMidpoint(2 * q, x, p, j);
    MulAssoc(2, q, p);
    MulStrict(Scale(2 * q, j), Scale(q, j) + after, p);
  }

  lemma AssembleBelow(x: nat, p: nat, j: nat, q: nat)
    requires p > 0 && NearestEven(x, p, q)
    requires j == 0 || 0x80_0000 * p <= x
    requires q <= 0x100_0000 && (j > 0 ==> q >= 0x80_0000)
    requires 0 < j * 0x80_0000 + q <= INFINITE
    ensures var m := j * 0x80_0000 + q;
            var low := (Coefficient(m - 1) + Coefficient(m)) * p;
            low < 2 * Scale(x, j) || (low == 2 * Scale(x, j) && m % 2 == 0)
  {
    hide *;
    var m := j * 0x80_0000 + q;
    CoefficientAt(j, q);
    if j > 0 && q == 0x80_0000 {
      CoefficientStep(m - 1);
      StrictBelow(x, p, q, j, Coefficient(m - 1));
    } else {
      CoefficientAt(j, q - 1);
      ScaleSum(q - 1, q, j);
      Neighbours(x, p, q);
      ScaledMidpoint(2 * q - 1, x, p, j);
    }
  }

  lemma AssembleAbove(x: nat, p: nat, j: nat, q: nat)
    requires p > 0 && NearestEven(x, p, q)
    requires x < 0x100_0000 * p
    requires q <= 0x100_0000 && (j > 0 ==> q >= 0x80_0000)
    requires j * 0x80_0000 + q < INFINITE
    ensures var m := j * 0x80_0000 + q;
            var high := (Coefficient(m) + Coefficient(m + 1)) * p;
            2 * Scale(x, j) < high || (2 * Scale(x, j) == high && m % 2 == 0)
  {
    hide *;
    var m := j * 0x80_0000 + q;
    CoefficientAt(j, q);
    if q == 0x100_0000 {
      CoefficientStep(m);
      StrictAbove(x, p, q, j, Coefficient(m + 1));
    } else {
      CoefficientAt(j, q + 1);
      ScaleSum(q, q + 1, j);
      Neighbours(x, p, q);
      ScaledMidpoint(2 * q + 1, x, p, j);
    }
  }

  /** At or past the last midpoint, whatever the scale, the result is infinite. */
  lemma AssembleOverflow(x: nat, p: nat, j: nat, q: nat)
    requires p > 0 && NearestEven(x, p, q)
    requires j == 0 || 0x80_0000 * p <= x
    requires q <= 0x100_0000 && (j > 0 ==> q >= 0x80_0000)
    requires j * 0x80_0000 + q >= INFINITE
    ensures Nearest(Scale(x, j), p, INFINITE)
  {
    assert j >= 253;
    if j == 253 {
      assert q == 0x100_0000;
      AssembleBelow(x, p, j, q);
    } else {
      var last := INFINITE - 1;
      assert Coefficient(INFINITE) == 0x80_0000 * Pow2(254) by { CoefficientAt(254, 0x80_0000); }
      CoefficientStep(last);
      var top := Coefficient(INFINITE);
      MulStrict(Coefficient(last) + top, 2 * top, p);
      Pow2Monotone(254, j);
      MulMonotone(0x80_0000 * p, x, Pow2(j));
      MulMonotone(Pow2(254), Pow2(j), 0x80_0000 * p);
      MulAssoc(0x80_0000, p, Pow2(254));
      MulAssoc(0x80_0000, Pow2(254), p);
      MulAssoc(2, top, p);
    }
  }
}
