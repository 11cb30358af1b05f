/**
 * Why a rounding to 53 digits followed by a rounding to binary32 can be
 * repaired. Magnitudes are in units of 2^-298; the points where the second
 * rounding changes are representable in binary64, so the first one never moves
 * a value past them: it can only land on one.
 */
module Midpoints {
  import opened Powers
  import opened Words
  import opened Binary32
  import opened Rounding
  import opened Binary64

  /** Halfway between the magnitudes m and m + 1. */
  function Middle(m: nat): nat
    requires m < INFINITE
  {
    Scale(Coefficient(m) + Coefficient(m + 1), 148)
  }

  /** m has x between the midpoints around it, and on one only if m is even. */
  predicate Between(x: int, m: nat) {
    && m <= INFINITE
    && (m > 0 ==> Middle(m - 1) < x || (Middle(m - 1) == x && m % 2 == 0))
    && (m < INFINITE ==> x < Middle(m) || (x == Middle(m) && m % 2 == 0))
  }

  lemma NearestIsBetween(x: nat, m: nat)
    ensures Nearest(x, Pow2(149), m) <==> Between(x, m)
  {
    if 0 < m <= INFINITE {
      DoubleMiddle(m - 1);
    }
    if m < INFINITE {
      DoubleMiddle(m);
    }
    hide Pow2, Coefficient, Middle;
  }

  lemma DoubleMiddle(m: nat)
    requires m < INFINITE
    ensures (Coefficient(m) + Coefficient(m + 1)) * Pow2(149) == 2 * Middle(m)
    ensures Scale(Coefficient(m), 149) + Scale(Coefficient(m + 1), 149) == 2 * Middle(m)
  {
    hide Scale, Pow2, Coefficient;
    var c := Coefficient(m) + Coefficient(m + 1);
    HalfScale(c, 148);
    ScaleSum(c, c, 148);
    ScaleIs(c, 149);
    ScaleSum(Coefficient(m), Coefficient(m + 1), 149);
  }

  lemma MiddleStep(m: nat)
    requires m + 1 < INFINITE
    ensures Middle(m) < Middle(m + 1)
  {
    hide Scale, Coefficient;
    CoefficientStep(m);
    CoefficientStep(m + 1);
    ScaleOrder(Coefficient(m) + Coefficient(m + 1), Coefficient(m + 1) + Coefficient(m + 2), 148);
  }

  lemma MiddlePositive(m: nat)
    requires m < INFINITE
    ensures Middle(m) > 0
  {
    hide Scale, Coefficient, Pow2;
    CoefficientPositive(m + 1);
    ScaleOrder(0, Coefficient(m) + Coefficient(m + 1), 148);
    ScalePow2(0, 148);
  }

  /** A midpoint has 25 digits at its scale. */
  lemma MiddleDigits(m: nat) returns (c: nat, k: nat)
    requires m < INFINITE
    ensures Middle(m) == Scale(c, k) && c < 0x200_0000
    ensures 2 * Middle(m) == Scale(c, k + 1)
  {
    hide Scale, Coefficient;
    var j, q := Decompose(m);
    CoefficientAt(j, q);
    CoefficientAt(j, q + 1);
    ScaleSum(q, q + 1, j);
    ScaleScale(2 * q + 1, j, 148);
    HalfScale(2 * q + 1, j + 148);
    c, k := 2 * q + 1, j + 148;
  }

  lemma FewDigits(c: nat, k: nat)
    requires c < 0x1_0000_0000_0000
    ensures Representable(Scale(c, k))
  {
    hide Pow2, Scale;
    Pow2WideLiterals();
    Pow2Monotone(48, 53);
    ScaleOrder(c, Pow2(53), k);
    ScalePow2(53, k);
    assert RepresentableAt(Scale(c, k), k);
  }

  lemma MiddleRepresentable(m: nat)
    requires m < INFINITE
    ensures Representable(Middle(m)) && Representable(2 * Middle(m))
  {
    hide Scale, Middle, Representable;
    var c, k := MiddleDigits(m);
    FewDigits(c, k);
    FewDigits(c, k + 1);
  }

  /** Rounding to 53 digits keeps the exact value on its side of a midpoint. */
  lemma SameSide(s: int, m: nat)
    requires m < INFINITE
    ensures Middle(m) < Round53(s) ==> Middle(m) < s
    ensures Round53(s) < Middle(m) ==> s < Middle(m)
  {
    hide Round53, Middle, Representable;
    MiddleRepresentable(m);
    RoundedIsNearest(s, Middle(m));
  }

  /** The candidate m for the rounded value h, moved by the sign of the residual if h is a midpoint. */
  function Corrected(h: int, residual: int, m: nat): nat
    requires m <= INFINITE
  {
    if m == INFINITE then (if residual < 0 && h == Middle(m - 1) then m - 1 else m)
    else if residual > 0 && m + 1 < INFINITE && h == Middle(m) then m + 1
    else if residual < 0 && m > 0 && h == Middle(m - 1) then m - 1
    else m
  }

  /** The corrected candidate is the rounding of the exact value. */
  lemma CorrectedNearest(s: nat, m: nat)
    requires Nearest(Round53(s), Pow2(149), m)
    ensures Nearest(s, Pow2(149), Corrected(Round53(s), s - Round53(s), m))
  {
    hide Round53, Nearest, Middle, Pow2;
    var h := Round53(s);
    NearestIsMagnitude(h, m);
    var r := Corrected(h, s - h, m);
    NearestIsBetween(h, m);
    NearestIsBetween(s, r);
    if m > 0 {
      SameSide(s, m - 1);
    }
    if m < INFINITE {
      SameSide(s, m);
    }
    if r > m {
      MiddleStep(m);
      SameSide(s, m + 1);
    } else if r < m && r > 0 {
      MiddleStep(r - 1);
      SameSide(s, r - 1);
    }
  }

  /** The conversion from binary64: one rounding of x * 2^-298. */
  function NarrowMagnitude(x: nat): nat {
    var j := if BitLength(x) <= 173 then 0 else BitLength(x) - 173;
    Assemble(j, RoundHalfEven(x, 149 + j))
  }

  lemma NarrowNearest(x: nat)
    ensures Nearest(x, Pow2(149), NarrowMagnitude(x))
    ensures NarrowMagnitude(x) <= INFINITE
  {
    var bits := BitLength(x);
    var j := if bits <= 173 then 0 else bits - 173;
    hide *;
    var d := 149 + j;
    var q := RoundHalfEven(x, d);
    NarrowIs(x, j, q);
    NarrowRange(x, bits, j);
    RoundHalfEvenNearest(x, d);
    AssembleNearest(x, d, j, q);
    ScaleScale(x, j, 149);
    ScaleIs(Scale(x, j), 149);
    ScaleIs(x, d);
    NearestRatio(Scale(x, j), Pow2(d), x, Pow2(149), Assemble(j, q));
    NearestIsMagnitude(x, Assemble(j, q));
  }

  lemma NarrowIs(x: nat, j: nat, q: nat)
    requires j == (if BitLength(x) <= 173 then 0 else BitLength(x) - 173) && q == RoundHalfEven(x, 149 + j)
    ensures NarrowMagnitude(x) == Assemble(j, q)
  {
  }

  lemma NearestIsMagnitude(x: nat, m: nat)
    requires Nearest(x, Pow2(149), m)
    ensures m <= INFINITE
  {
    hide Pow2, Coefficient;
  }

  lemma NarrowRange(x: nat, bits: nat, j: nat)
    requires bits == BitLength(x) && j == if bits <= 173 then 0 else bits - 173
    ensures x < 0x100_0000 * Pow2(149 + j)
    ensures j == 0 || 0x80_0000 * Pow2(149 + j) <= x
  {
    hide Pow2, BitLength;
    Pow2Literals();
    Pow2Add(24, 149 + j);
    Pow2Add(23, 149 + j);
    BitLengthBound(x, 173 + j);
    if j > 0 {
      BitLengthBound(x, 172 + j);
    }
  }
}
