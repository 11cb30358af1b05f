/**
 * Alignment with a sticky bit, and why it is harmless: a jammed integer stands
 * for an exact value strictly between its neighbours, and the later rounding
 * has no boundary there.
 */
module Rounding {
  import opened Powers
  import opened Binary32

  /** x / 2^d rounded to nearest, ties to even. */
  function RoundHalfEven(x: nat, d: nat): nat {
    var q, r := High(x, d), Low(x, d);
    if 2 * r > Pow2(d) || (2 * r == Pow2(d) && q % 2 == 1) then q + 1 else q
  }

  lemma RoundHalfEvenNearest(x: nat, d: nat)
    ensures NearestEven(x, Pow2(d), RoundHalfEven(x, d))
  {
    Split(x, d);
    hide High, Low, Pow2;
    MulDistributes(High(x, d), 1, Pow2(d));
  }

  /** The quotient by 2^d with every lost digit collected in its last place. */
  function Jam(x: nat, d: nat): nat {
    var q := High(x, d);
    if Low(x, d) != 0 && q % 2 == 0 then q + 1 else q
  }

  /** m stands for y / 2^t: exactly, or as the odd integer closest to it. */
  predicate Sticky(m: int, y: int, t: nat) {
    y == Scale(m, t) || (m % 2 == 1 && Scale(m - 1, t) < y < Scale(m + 1, t))
  }

  lemma JamSticky(x: nat, d: nat)
    ensures Sticky(Jam(x, d), x, d)
  {
    Split(x, d);
    var q: int, r: int := High(x, d), Low(x, d);
    ScaleIs(q, d);
    ScalePow2(0, d);
    ScaleSum(q, 1, d);
    ScaleSum(q, 2, d);
    ScaleSum(q, -1, d);
    ScaleOrder(0, 1, d);
    ScaleOrder(q + 1, q + 2, d);
    ScaleOrder(q - 1, q, d);
    hide High, Low, Pow2, Scale;
  }

  /** Nothing is lost when the low digits were zero. */
  lemma JamExact(x: nat, zeros: nat, d: nat)
    requires Low(x, zeros) == 0 && d <= zeros
    ensures x == Scale(Jam(x, d), d)
  {
    hide Low, High;
    HighHigh(x, d, zeros - d);
    Split(x, d);
    MulMonotone(0, Low(High(x, d), zeros - d), Pow2(d));
  }

  lemma JamBound(x: nat, d: nat, bits: nat)
    requires x < Pow2(bits) && d < bits
    ensures Jam(x, d) < Pow2(bits - d)
  {
    hide Low, High;
    Pow2Add(bits - d, d);
    HighBound(x, d, Pow2(bits - d));
    assert Pow2(bits - d) == 2 * Pow2(bits - d - 1);
  }

  /** A second jam collects what the first one left. */
  lemma JamAgain(m: nat, y: int, t: nat)
    requires Sticky(m, y, t)
    ensures Sticky(Jam(m, 1), y, t + 1)
  {
    assert Pow2(1) == 2;
    var half := m / 2;
    assert Jam(m, 1) == if m % 2 == 1 && half % 2 == 0 then half + 1 else half;
    hide Jam;
    HalfScale(half - 1, t);
    HalfScale(half, t);
    HalfScale(half + 1, t);
    HalfScale(half + 2, t);
    ScaleOrder(m - 1, m, t);
    ScaleOrder(m, m + 1, t);
    ScaleOrder(2 * half, 2 * half + 2, t);
    ScaleOrder(2 * half - 2, 2 * half, t);
    ScaleOrder(2 * half + 2, 2 * half + 4, t);
    ScaleOrder(2 * half, 2 * half + 1, t);
    ScaleOrder(2 * half + 1, 2 * half + 2, t);
    hide Scale;
  }

  lemma StickyAdd(m: int, y: int, t: nat, a: int)
    requires Sticky(m, y, t) && a % 2 == 0
    ensures Sticky(m + a, y + Scale(a, t), t)
    ensures Sticky(a - m, Scale(a, t) - y, t)
  {
    ScaleSum(m, a, t);
    ScaleSum(m - 1, a, t);
    ScaleSum(m + 1, a, t);
    ScaleSum(a - m, m, t);
    ScaleSum(a - m - 1, m + 1, t);
    ScaleSum(a - m + 1, m - 1, t);
    hide Scale;
  }

  lemma StickyNegate(m: int, y: int, t: nat)
    requires Sticky(m, y, t)
    ensures Sticky(-m, -y, t)
  {
    StickyAdd(m, y, t, 0);
    assert Scale(0, t) == 0;
  }

  lemma NearestEvenIs(x: int, d: nat, q: int)
    ensures NearestEven(x, Pow2(d), q)
       <==> && -Pow2(d) <= 2 * (x - Scale(q, d)) <= Pow2(d)
            && (2 * (x - Scale(q, d)) == Pow2(d) || 2 * (x - Scale(q, d)) == -Pow2(d) ==> q % 2 == 0)
  {
    ScaleIs(q, d);
  }

  lemma NearestEvenScale(x: int, k: nat, d: nat, q: int)
    ensures NearestEven(Scale(x, k), Pow2(d + k), q) <==> NearestEven(x, Pow2(d), q)
  {
    var c := Scale(q, d);
    NearestEvenIs(x, d, q);
    NearestEvenIs(Scale(x, k), d + k, q);
    ScaleScale(q, d, k);
    ScalePow2(d, k);
    ScaleSum(x, -c, k);
    ScaleSum(c, -c, k);
    ScaleSum(x - c, x - c, k);
    ScaleSum(Pow2(d), -Pow2(d), k);
    ScaleOrder(2 * (x - c), Pow2(d), k);
    ScaleOrder(-Pow2(d), 2 * (x - c), k);
    ScaleOrder(Pow2(d), 2 * (x - c), k);
    ScaleOrder(2 * (x - c), -Pow2(d), k);
    assert Scale(0, k) == 0;
    hide *;
  }

  /** No rounding boundary lies within one unit of an odd integer. */
  lemma OddAwayFromTies(m: int, d: nat, q: int)
    requires m % 2 == 1 && d >= 2 && NearestEven(m, Pow2(d), q)
    ensures -Pow2(d) <= 2 * (m - 1 - Scale(q, d))
    ensures 2 * (m + 1 - Scale(q, d)) <= Pow2(d)
  {
    NearestEvenIs(m, d, q);
    hide *;
    Pow2Double(d - 1);
    Pow2Double(d - 2);
    HalfScale(q, d - 1);
    HalfScale(q, d - 2);
  }

  /** Rounding the jammed integer rounds the exact value. */
  lemma StickyRounds(m: int, y: int, t: nat, d: nat, q: int)
    requires Sticky(m, y, t) && NearestEven(m, Pow2(d), q)
    requires d >= 2 || y == Scale(m, t)
    ensures NearestEven(y, Pow2(d + t), q)
  {
    if y == Scale(m, t) {
      NearestEvenScale(m, t, d, q);
    } else {
      OddAwayFromTies(m, d, q);
      assert Scale(m - 1, t) < y < Scale(m + 1, t);
      hide *;
      var c, p := Scale(q, d), Pow2(d);
      NearestEvenIs(y, d + t, q);
      ScaleScale(q, d, t);
      ScalePow2(d, t);
      ScaleSum(m + 1, -c, t);
      ScaleSum(m - 1, -c, t);
      ScaleSum(c, -c, t);
      ScaleSum(p, -p, t);
      ScalePow2(0, t);
      ScaleSum(m + 1 - c, m + 1 - c, t);
      ScaleSum(m - 1 - c, m - 1 - c, t);
      ScaleOrder(2 * (m + 1 - c), p, t);
      ScaleOrder(-p, 2 * (m - 1 - c), t);
    }
  }

  /** An even bound on the jammed integer is a bound on the exact value. */
  lemma StickyBounds(m: int, y: int, t: nat, bound: int)
    requires Sticky(m, y, t)
    requires bound % 2 == 0 || y == Scale(m, t)
    ensures bound <= m ==> Scale(bound, t) <= y
    ensures m < bound ==> y < Scale(bound, t)
  {
    ScaleOrder(bound, m, t);
    ScaleOrder(m, bound, t);
    ScaleOrder(bound, m - 1, t);
    ScaleOrder(m + 1, bound, t);
    hide Scale;
  }

  /**
   * The common end of the kernels. The jammed integer m stands for y / 2^t; it
   * is shifted left by s and rounded at distance d into the significand q of
   * the word at scale j. Then that word is y * 2^(s + j) / 2^(t + d) rounded once.
   */
  lemma StickyAssemble(m: nat, y: nat, t: nat, s: nat, d: nat, j: nat, q: nat)
    requires Sticky(m, y, t) && NearestEven(Scale(m, s), Pow2(d), q)
    requires d >= s + 2 || y == Scale(m, t)
    requires Scale(m, s) < 0x100_0000 * Pow2(d)
    requires j == 0 || 0x80_0000 * Pow2(d) <= Scale(m, s)
    ensures Nearest(Scale(y, s + j), Pow2(t + d), Assemble(j, q))
    ensures q <= 0x100_0000 && (j > 0 ==> q >= 0x80_0000)
  {
    var x := Scale(y, s);
    hide Nearest, NearestEven, Sticky, Assemble;
    assert NearestEven(x, Pow2(t + d), q) by {
      if y == Scale(m, t) {
        ScaleScale(m, t, s);
        ScaleScale(m, s, t);
        NearestEvenScale(Scale(m, s), t, d, q);
      } else {
        NearestEvenScale(m, s, d - s, q);
        StickyRounds(m, y, t, d - s, q);
        NearestEvenScale(y, s, d - s + t, q);
      }
    }
    StickyRange(m, y, t, s, d, 0x100_0000);
    StickyRange(m, y, t, s, d, 0x80_0000);
    ScaleScale(y, s, j);
    AssembleNearest(x, t + d, j, q);
  }

  lemma StickyRange(m: nat, y: nat, t: nat, s: nat, d: nat, bound: nat)
    requires Sticky(m, y, t)
    requires d >= s + 2 || y == Scale(m, t)
    ensures bound * Pow2(d) <= Scale(m, s) ==> bound * Pow2(t + d) <= Scale(y, s)
    ensures Scale(m, s) < bound * Pow2(d) ==> Scale(y, s) < bound * Pow2(t + d)
  {
    hide *;
    var wide := Scale(bound, d);
    ScaleIs(bound, d);
    ScaleIs(bound, t + d);
    ScaleScale(bound, d, t);
    if y == Scale(m, t) {
      ScaleScale(m, t, s);
      ScaleScale(m, s, t);
      ScaleOrder(wide, Scale(m, s), t);
      ScaleOrder(Scale(m, s), wide, t);
    } else {
      var b := Scale(bound, d - s);
      ScaleScale(bound, d - s, s);
      ScaleOrder(b, m, s);
      ScaleOrder(m, b, s);
      HalfScale(bound, d - s - 1);
      StickyBounds(m, y, t, b);
      ScaleScale(b, t, s);
      ScaleScale(b, s, t);
      ScaleOrder(Scale(b, t), y, s);
      ScaleOrder(y, Scale(b, t), s);
    }
  }
}
