/**
 * binary64 addition by its rounding contract. The sums of the CPU kernel are
 * integers in units of 2^-298 of fewer than 1100 digits, so only the 53-digit
 * precision of binary64 matters and never its exponent range.
 */
module Binary64 {
  import opened Powers
  import opened Words
  import opened Binary32
  import opened Rounding

  /** The position of the last significand digit; exact integers have position 0. */
  function Ulp(x: int): nat { if BitLength(Abs(x)) <= 53 then 0 else BitLength(Abs(x)) - 53 }

  /** x rounded to 53 significant digits, ties to even. */
  function Round53(x: int): (r: int)
    ensures x >= 0 ==> r >= 0
  {
    var magnitude := Scale(RoundHalfEven(Abs(x), Ulp(x)), Ulp(x));
    if x < 0 then 0 - magnitude else magnitude
  }

  ghost predicate Multiple(x: int, k: nat) { exists c :: x == Scale(c, k) }

  ghost predicate RepresentableAt(x: int, k: nat) { Multiple(x, k) && Abs(x) <= Pow2(53 + k) }

  ghost predicate Representable(x: int) { exists k :: RepresentableAt(x, k) }

  lemma MultipleSum(x: int, y: int, k: nat)
    requires Multiple(x, k) && Multiple(y, k)
    ensures Multiple(x + y, k) && Multiple(x - y, k) && Multiple(0 - x, k)
  {
    hide Scale;
    var c :| x == Scale(c, k);
    var d :| y == Scale(d, k);
    ScaleSum(c, d, k);
    ScaleSum(c, 0 - d, k);
    ScaleSum(d, 0 - d, k);
    ScaleSum(c, 0 - c, k);
    ScalePow2(0, k);
    assert x + y == Scale(c + d, k);
    assert x - y == Scale(c - d, k);
    assert 0 - x == Scale(0 - c, k);
  }

  lemma MultipleCoarser(x: int, k: nat, j: nat)
    requires Multiple(x, k) && j <= k
    ensures Multiple(x, j)
  {
    hide Scale;
    var c :| x == Scale(c, k);
    ScaleScale(c, k - j, j);
    assert x == Scale(Scale(c, k - j), j);
  }

  lemma MultipleOne(x: int)
    ensures Multiple(x, 0)
  {
    ScaleZero(x);
  }

  /** A multiple strictly below a power of two is at least one step below it. */
  lemma MultipleGap(x: int, k: nat, top: nat)
    requires Multiple(x, k) && x < Pow2(top) && k <= top
    ensures x + Pow2(k) <= Pow2(top)
  {
    hide Scale, Pow2;
    var c :| x == Scale(c, k);
    ScalePow2(top - k, k);
    ScaleOrder(c, Pow2(top - k), k);
    ScaleOrder(c + 1, Pow2(top - k), k);
    ScaleSum(c, 1, k);
    ScalePow2(0, k);
  }

  lemma UlpBounds(x: int)
    ensures Abs(x) < Pow2(53 + Ulp(x))
    ensures Ulp(x) > 0 ==> Pow2(52 + Ulp(x)) <= Abs(x)
  {
    hide Pow2, BitLength;
    BitLengthBound(Abs(x), 53);
    if Ulp(x) > 0 {
      BitLengthBound(Abs(x), 52 + Ulp(x));
    }
  }

  lemma UlpMonotone(x: int, y: int)
    requires Abs(x) <= Abs(y)
    ensures Ulp(x) <= Ulp(y)
  {
    hide Pow2;
    UlpBounds(x);
    UlpBounds(y);
    if Ulp(x) > Ulp(y) {
      Pow2Monotone(53 + Ulp(y), 52 + Ulp(x));
    }
  }

  /** The rounded value is within half a unit, a multiple of the unit, and of 53 digits. */
  lemma RoundedProperties(x: int)
    ensures 2 * Abs(x - Round53(x)) <= Pow2(Ulp(x))
    ensures RepresentableAt(Round53(x), Ulp(x)) && Representable(Round53(x))
    ensures Ulp(x) == 0 ==> Round53(x) == x
  {
    var e := Ulp(x);
    var q := RoundHalfEven(Abs(x), e);
    RoundHalfEvenNearest(Abs(x), e);
    UlpBounds(x);
    hide Scale, Pow2, Ulp, RoundHalfEven;
    NearestEvenIs(Abs(x), e, q);
    Significand53(Abs(x), e, q);
    if e == 0 {
      ExactWhole(Abs(x), q);
    }
    MultipleSum(Scale(q, e), Scale(q, e), e);
  }

  lemma ExactWhole(x: nat, q: nat)
    requires q == RoundHalfEven(x, 0)
    ensures Scale(q, 0) == x
  {
    SplitNone(x);
    ScaleZero(q);
  }

  lemma Significand53(x: nat, e: nat, q: nat)
    requires x < Pow2(53 + e) && NearestEven(x, Pow2(e), q)
    ensures Multiple(Scale(q, e), e) && Abs(Scale(q, e)) <= Pow2(53 + e)
  {
    hide Scale, Pow2, NearestEven;
    Pow2Add(53, e);
    NearestEvenBetween(x, Pow2(e), q, 0, Pow2(53));
    ScalePow2(53, e);
    ScaleOrder(q, Pow2(53), e);
    ScaleOrder(0, q, e);
    ScalePow2(0, e);
  }

  /** No representable value is closer than the rounded one. */
  lemma RoundedIsNearest(x: int, m: int)
    requires Representable(m)
    ensures Abs(x - Round53(x)) <= Abs(x - m)
  {
    var k :| RepresentableAt(m, k);
    var e := Ulp(x);
    RoundedProperties(x);
    if e > 0 {
      if k >= e {
        MultipleCoarser(m, k, e);
        LatticeNearest(x, m, e);
      } else {
        FinerIsFarther(x, m, k, e);
      }
    }
  }

  /** On the multiples of its unit the rounding is to nearest. */
  lemma LatticeNearest(x: int, m: int, e: nat)
    requires e == Ulp(x) && Multiple(m, e)
    ensures Abs(x - Round53(x)) <= Abs(x - m)
  {
    hide Scale, Pow2, Ulp, Round53;
    RoundedProperties(x);
    var r := Round53(x);
    MultipleSum(m, r, e);
    if m != r {
      StepApart(m - r, e);
    }
  }

  lemma StepApart(x: int, k: nat)
    requires Multiple(x, k) && x != 0
    ensures Abs(x) >= Pow2(k)
  {
    hide Scale, Pow2;
    var c :| x == Scale(c, k);
    ScalePow2(0, k);
    ScaleOrder(1, c, k);
    ScaleOrder(c, -1, k);
    ScaleSum(1, -1, k);
    ScaleOrder(c, 0, k);
    ScaleOrder(0, c, k);
  }

  lemma FinerIsFarther(x: int, m: int, k: nat, e: nat)
    requires e == Ulp(x) && k < e && RepresentableAt(m, k)
    ensures Abs(x - Round53(x)) <= Abs(x - m)
  {
    hide Scale, Pow2, Ulp, Round53, Multiple;
    UlpBounds(x);
    Pow2Monotone(53 + k, 52 + e);
    var bound := Pow2(52 + e);
    PowerMultiple(52, e);
    LatticeNearest(x, bound, e);
    MultipleSum(bound, bound, e);
    LatticeNearest(x, 0 - bound, e);
  }

  lemma PowerMultiple(a: nat, e: nat)
    ensures Multiple(Pow2(a + e), e)
  {
    ScalePow2(a, e);
    assert Pow2(a + e) == Scale(Pow2(a), e);
    hide Scale, Pow2;
  }

  lemma RoundedExact(x: int)
    requires Representable(x)
    ensures Round53(x) == x
    ensures Multiple(x, Ulp(x))
  {
    hide Round53, Ulp, Representable;
    RoundedIsNearest(x, x);
    RoundedProperties(x);
  }

  lemma RepresentableNegation(x: int)
    requires Representable(x)
    ensures Representable(0 - x)
  {
    hide Multiple, Pow2;
    var k :| RepresentableAt(x, k);
    MultipleSum(x, x, k);
    assert RepresentableAt(0 - x, k);
  }

  /** The rounding error of a sum is representable. */
  lemma SumErrorRepresentable(a: int, b: int)
    requires Representable(a) && Representable(b)
    ensures Representable(a + b - Round53(a + b))
  {
    hide Multiple, Pow2, Ulp, Round53;
    var i :| RepresentableAt(a, i);
    var j :| RepresentableAt(b, j);
    if i <= j {
      ErrorAt(a, b, i, j);
    } else {
      ErrorAt(b, a, j, i);
    }
  }

  lemma ErrorAt(a: int, b: int, i: nat, j: nat)
    requires RepresentableAt(a, i) && RepresentableAt(b, j) && i <= j
    ensures Representable(a + b - Round53(a + b))
  {
    hide Multiple, Pow2, Ulp, Round53;
    var s := a + b;
    MultipleCoarser(b, j, i);
    MultipleSum(a, b, i);
    RoundedMultiple(s, i);
    MultipleSum(s, Round53(s), i);
    RoundedIsNearest(s, b);
    assert RepresentableAt(s - Round53(s), i);
  }

  lemma RoundedMultiple(s: int, i: nat)
    requires Multiple(s, i)
    ensures Multiple(Round53(s), i)
    ensures Ulp(s) <= i ==> Representable(s)
  {
    hide Multiple, Pow2, Ulp, Round53;
    UlpBounds(s);
    RoundedProperties(s);
    if Ulp(s) >= i {
      MultipleCoarser(Round53(s), Ulp(s), i);
    }
    if Ulp(s) <= i {
      Pow2Monotone(53 + Ulp(s), 53 + i);
      assert RepresentableAt(s, i);
      RoundedExact(s);
    }
  }

  /** Taking the larger operand back out of a rounded sum is exact. */
  lemma LargerTakenBack(x: int, y: int)
    requires Representable(x) && Representable(y) && Abs(y) <= Abs(x)
    ensures Representable(Round53(x + y) - x)
  {
    hide Multiple, Pow2, Ulp, Round53, Representable;
    var s := x + y;
    var i, j, r := Ulp(y), Ulp(x), Ulp(s);
    RoundedExact(x);
    RoundedExact(y);
    UlpMonotone(y, x);
    MultipleCoarser(x, j, i);
    MultipleSum(x, y, i);
    RoundedMultiple(s, i);
    if r <= i {
      RoundedExact(s);
    } else {
      TakenBackAt(x, y, i, j, r);
    }
  }

  lemma TakenBackAt(x: int, y: int, i: nat, j: nat, r: nat)
    requires Abs(y) <= Abs(x) && Multiple(x, j) && i == Ulp(y) && j == Ulp(x) && r == Ulp(x + y) && i < r
    ensures Representable(Round53(x + y) - x)
  {
    hide Multiple, Pow2, Ulp, Round53;
    var w := Round53(x + y) - x;
    RoundedProperties(x + y);
    UlpBounds(x);
    UlpBounds(y);
    Pow2Double(53 + j);
    UlpOfSum(x + y, j, r);
    Pow2Double(r - 1);
    Pow2Double(52 + r);
    if r <= j {
      MultipleCoarser(x, j, r);
      MultipleSum(Round53(x + y), x, r);
      Pow2Monotone(53 + i, 52 + r);
      Pow2Monotone(r - 1, 52 + r);
      assert RepresentableAt(w, r);
    } else {
      MultipleCoarser(Round53(x + y), r, j);
      MultipleSum(Round53(x + y), x, j);
      MultipleSum(x, x, j);
      MultipleGap(Abs(x), j, 53 + j);
      assert RepresentableAt(w, j);
    }
  }

  lemma UlpOfSum(s: int, j: nat, r: nat)
    requires Abs(s) < 2 * Pow2(53 + j) && r == Ulp(s)
    ensures r <= j + 1
  {
    hide Pow2, Ulp;
    UlpBounds(s);
    Pow2Double(53 + j);
    if r > j + 1 {
      Pow2Monotone(54 + j, 52 + r);
    }
  }

  /** The six roundings of the compensated sum. */
  function TwoSumLow(a: int, b: int): int {
    var high := Round53(a + b);
    var z := Round53(high - a);
    Round53(Round53(a - Round53(high - z)) + Round53(b - z))
  }

  /** They recover the rounding error exactly, whichever operand is larger. */
  lemma TwoSumExact(a: int, b: int)
    requires Representable(a) && Representable(b)
    ensures TwoSumLow(a, b) == a + b - Round53(a + b)
  {
    hide Round53, Representable;
    SumErrorRepresentable(a, b);
    RoundedExact(a);
    RoundedExact(b);
    RoundedExact(a + b - Round53(a + b));
    ZeroRepresentable();
    RoundedExact(0);
    if Abs(b) <= Abs(a) {
      LargerTakenBack(a, b);
      RoundedExact(Round53(a + b) - a);
    } else if Round53(a + b) == a + b {
    } else {
      SmallerFirst(a, b);
    }
  }

  lemma ZeroRepresentable()
    ensures Representable(0)
  {
    MultipleOne(0);
    assert RepresentableAt(0, 0);
  }

  lemma SmallerFirst(a: int, b: int)
    requires Representable(a) && Representable(b) && Abs(a) < Abs(b) && Round53(a + b) != a + b
    ensures TwoSumLow(a, b) == a + b - Round53(a + b)
  {
    hide *;
    var x := Round53(a + b);
    RoundedProperties(a + b);
    HighDominates(a, b);
    RepresentableNegation(a);
    LargerTakenBack(x, 0 - a);
    var z := Round53(x - a);
    var error := x - a - z;
    assert x + (0 - a) == x - a;
    RepresentableNegation(z - x);
    RoundedExact(x - z);
    SumErrorRepresentable(x, 0 - a);
    RepresentableNegation(error);
    RoundedExact(0 - error);
    VirtualDifference(a, b, x, z);
    RoundedExact(b - z);
    SumErrorRepresentable(a, b);
    RoundedExact(a + b - x);
    TwoSumIs(a, b, x, z);
  }

  lemma TwoSumIs(a: int, b: int, x: int, z: int)
    requires x == Round53(a + b) && z == Round53(x - a)
    ensures TwoSumLow(a, b) == Round53(Round53(a - Round53(x - z)) + Round53(b - z))
  {
    hide Round53;
  }

  /** An inexact sum is no smaller than its smaller operand. */
  lemma HighDominates(a: int, b: int)
    requires Representable(a) && Representable(b) && Abs(a) < Abs(b) && Round53(a + b) != a + b
    ensures Abs(a) <= Abs(Round53(a + b))
  {
    hide Round53, Ulp, Multiple, Pow2;
    var s := a + b;
    if Abs(s) <= Abs(a) {
      RoundedExact(a);
      RoundedExact(b);
      UlpMonotone(a, b);
      MultipleCoarser(b, Ulp(b), Ulp(a));
      MultipleSum(a, b, Ulp(a));
      UlpMonotone(s, a);
      RoundedMultiple(s, Ulp(a));
      RoundedExact(s);
    } else {
      RepresentableNegation(a);
      RoundedIsNearest(s, a);
      RoundedIsNearest(s, 0 - a);
    }
  }

  /** The larger operand as recovered is within a few units of itself. */
  lemma VirtualDifference(a: int, b: int, x: int, z: int)
    requires Representable(a) && Representable(b) && Abs(a) < Abs(b)
    requires x == Round53(a + b) && z == Round53(x - a)
    ensures Representable(b - z)
  {
    hide Round53, Ulp, Multiple, Pow2, Representable;
    var j := Ulp(b);
    RoundedExact(b);
    RoundedIsNearest(x - a, b);
    RoundedProperties(a + b);
    RoundedProperties(x - a);
    UlpBounds(b);
    UlpOfSum(a + b, j, Ulp(a + b));
    Pow2Monotone(Ulp(a + b), j + 1);
    assert Abs(b - z) <= Pow2(j + 1);
    if j == 0 {
      Pow2Monotone(1, 53);
      MultipleOne(b - z);
      SmallRepresentable(b - z, 0);
    } else {
      VirtualUnit(b, z, x - a, j);
      MultipleCoarser(b, j, j - 1);
      MultipleSum(b, z, j - 1);
      Pow2Monotone(j + 1, 53 + (j - 1));
      SmallRepresentable(b - z, j - 1);
    }
  }

  lemma SmallRepresentable(x: int, k: nat)
    requires Multiple(x, k) && Abs(x) <= Pow2(53 + k)
    ensures Representable(x)
  {
    assert RepresentableAt(x, k);
  }

  lemma VirtualUnit(b: int, z: int, v: int, j: nat)
    requires j > 0 && j == Ulp(b) && z == Round53(v) && Abs(b - z) <= Pow2(j + 1)
    ensures Multiple(z, j - 1)
  {
    hide Round53, Ulp, Multiple, Pow2, Representable;
    UlpBounds(b);
    Pow2Double(51 + j);
    Pow2Double(50 + j);
    Pow2Monotone(j + 1, 50 + j);
    RoundedProperties(v);
    UlpBounds(v);
    if Ulp(v) < j - 1 {
      Pow2Monotone(53 + Ulp(v), 51 + j);
    }
    MultipleCoarser(z, Ulp(v), j - 1);
  }
}
