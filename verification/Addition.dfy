/** The WebGPU kernel for binary32 addition. */
module Addition {
  import opened Powers
  import opened Words
  import opened Binary32
  import opened Rounding
  import opened WideMagnitudes
  import opened FusedMultiplyAdd

  function ShiftRightJam(value: u32, distance: u32): u32 {
    if distance == 0 then value
    else if distance >= 32 then Select(value != 0)
    else Or(Shr(value, distance), Select(Shl(value, 32 - distance) != 0))
  }

  lemma ShiftRightJamExact(value: u32, distance: u32)
    ensures ShiftRightJam(value, distance) == Jam(value, distance)
  {
    hide Shl, Shr, Or, High, Low, Pow2, Scale;
    Pow2Literals();
    if distance == 0 {
      JamNone(value);
    } else if distance >= 32 {
      Pow2Monotone(32, distance);
      SplitUnique(value, distance, 0, value);
    } else {
      ShlSplit(value, 32 - distance);
      ShrIs(value, distance);
      OrSticky(Shr(value, distance), Select(Shl(value, 32 - distance) != 0));
    }
  }

  /** addition of section 5.4.1, with this implementation's one NaN. */
  predicate AdditionResult(left: u32, right: u32, word: u32) {
    if IsNaN(left) || IsNaN(right) then word == QUIET_NAN
    else if IsInfinite(left) && IsInfinite(right) && Negative(left) != Negative(right) then word == QUIET_NAN
    else if IsInfinite(left) then word == left
    else if IsInfinite(right) then word == right
    else RoundedSum(Exact(left) + Exact(right), 1, Negative(left) && Negative(right), word)
  }

  /** The biased exponent at which the significand counts, 1 for subnormals. */
  function EffectiveExponent(word: u32): (e: u32)
    ensures e >= 1 && e <= 255
  {
    Max(And(Shr(word, 23), 255), 1)
  }

  function EffectiveSignificand(word: u32): u32 {
    Or(And(word, 0x7f_ffff), if And(word, 0x7f80_0000) != 0 then 0x80_0000 else 0)
  }

  lemma EffectiveValue(word: u32)
    requires IsFinite(word)
    ensures var e, s := EffectiveExponent(word), EffectiveSignificand(word);
            && s < 0x100_0000 && e <= 254
            && (e > 1 ==> s >= 0x80_0000)
            && Coefficient(Magnitude(word)) == Scale(s, e - 1)
            && Shl(s, 3) == 8 * s
  {
    Fields(word);
    HiddenMask(word);
    hide And, Shr, Or, Scale, Pow2, Shl;
    var m := Magnitude(word);
    OrHidden(m % 0x80_0000);
    OrNothing(m % 0x80_0000);
    ScaleZero(m);
    ShlThree(EffectiveSignificand(word));
  }

  lemma OrNothing(w: u32)
    ensures Or(w, 0) == w
  {
  }

  lemma ShlThree(s: u32)
    requires s < 0x100_0000
    ensures Shl(s, 3) == 8 * s
  {
    Pow2Literals();
  }

  lemma HiddenMask(word: u32)
    ensures And(word, 0x7f80_0000) != 0 <==> And(Shr(word, 23), 255) != 0
  {
    hide BitAnd, Scale, Pow2, High;
    Pow2Literals();
    ScaleIs(255, 23);
    AndHigh(word, 255, 23);
    var f := BitAnd(High(word, 23), 255);
    ScaleOrder(0, f, 23);
    ScaleOrder(f, 0, 23);
    ScalePow2(0, 23);
  }

  /** The larger operand keeps its digits; a jammed smaller one cannot cancel more than one of them. */
  lemma AlignWords(a: nat, b: nat, t: nat)
    requires a < 0x100_0000 && b < 0x100_0000 && (t > 0 ==> a >= 0x80_0000)
    requires 8 * b <= Scale(8 * a, t)
    ensures Jam(8 * b, t) <= 8 * a
    ensures Jam(8 * b, t) < 0x800_0000
    ensures Sticky(8 * a + Jam(8 * b, t), Scale(8 * a, t) + 8 * b, t)
    ensures Sticky(8 * a - Jam(8 * b, t), Scale(8 * a, t) - 8 * b, t)
    ensures Scale(8 * a, t) - 8 * b == Scale(8 * a - Jam(8 * b, t), t) || 8 * a - Jam(8 * b, t) >= 0x200_0000
  {
    hide *;
    var j := Jam(8 * b, t);
    DivModUnique(8 * a, 2, 4 * a, 0);
    JamSticky(8 * b, t);
    StickyAdd(j, 8 * b, t, 8 * a);
    DifferenceSign(8 * a - j, Scale(8 * a, t) - 8 * b, t);
    if t <= 3 {
      LowEight(b);
      JamExact(8 * b, 3, t);
      ScaleSum(8 * a - j, j, t);
      Pow2Literals();
      JamBelow(8 * b, t, 27);
    } else {
      JamShrinks(8 * b, t);
    }
  }

  lemma LowEight(x: nat)
    ensures Low(8 * x, 3) == 0
  {
    Pow2Literals();
    SplitUnique(8 * x, 3, x, 0);
  }

  lemma JamShrinks(x: nat, t: nat)
    requires x < 0x800_0000 && t > 3
    ensures Jam(x, t) <= 0x80_0000
  {
    hide Low, Scale, Pow2;
    Pow2Literals();
    Pow2Double(3);
    Pow2Monotone(4, t);
    MulMonotone(16, Pow2(t), 0x80_0000);
    HighBound(x, t, 0x80_0000);
  }

  /** The packed word; a significand below the hidden bit has exponent field zero. */
  function EncodeSum(sign: u32, exponent: u32, rounded: u32): u32
    requires exponent < 1000
  {
    var carried := rounded >= 0x100_0000;
    var rounded' := if carried then Shr(rounded, 1) else rounded;
    var exponent' := if carried then AddWord(exponent, 1) else exponent;
    if exponent' >= 255 then Or(sign, 0x7f80_0000)
    else Or(Or(sign, Shl(if rounded' < 0x80_0000 then 0 else exponent', 23)), And(rounded', 0x7f_ffff))
  }

  lemma EncodeSumIs(negative: bool, exponent: u32, q: u32)
    requires 1 <= exponent < 1000 && q <= 0x100_0000 && (exponent > 1 ==> q >= 0x80_0000)
    ensures EncodeSum(SignBit(negative), exponent, q) == SignBit(negative) + Assemble(exponent - 1, q)
  {
    hide Shr, Or, Shl, And, Pow2;
    HalveCarried();
    var carried := q == 0x100_0000;
    var e := if carried then exponent + 1 else exponent;
    var r := if carried then 0x80_0000 else q;
    OrSign(negative, 0x7f80_0000);
    if e < 255 {
      PackFields(negative, if r < 0x80_0000 then 0 else e, r);
    }
  }

  /** Three guard digits are dropped by rounding to nearest, ties to even. */
  function RoundGuard(significand: u32): u32 {
    var remainder := And(significand, 7);
    var rounded := Shr(significand, 3);
    if remainder > 4 || (remainder == 4 && And(rounded, 1) != 0) then AddWord(rounded, 1) else rounded
  }

  lemma RoundGuardIs(significand: u32)
    ensures RoundGuard(significand) == RoundHalfEven(significand, 3)
  {
    Pow2Literals();
    AndMask(significand, 3);
    AndOne(Shr(significand, 3));
    hide Pow2, BitAnd;
  }

  /** The word the kernel returns for a nonzero sum of the given exact value. */
  lemma RoundSum(num: int, y: nat, t: nat, m: nat, s: nat, exponent: u32, negative: bool, significand: u32)
    requires num != 0 && negative == (num < 0)
    requires Sticky(m, y, t) && (y == Scale(m, t) || s <= 1)
    requires significand == Scale(m, s) < 0x800_0000 && 1 <= exponent < 500
    requires exponent == 1 || significand >= 0x400_0000
    requires exponent + s >= t + 1 && Scale(Abs(num), 3) == Scale(y, exponent + s - t - 1)
    ensures RoundsTo(num, 1, EncodeSum(SignBit(negative), exponent, RoundGuard(significand)))
  {
    hide Sticky, Scale, Pow2, EncodeSum, RoundGuard, Nearest, Assemble, RoundHalfEven, Coefficient;
    var j := exponent - 1;
    var q := RoundGuard(significand);
    RoundGuardIs(significand);
    RoundHalfEvenNearest(significand, 3);
    Pow2Literals();
    StickyAssemble(m, y, t, s, 3, j, q);
    SumRatio(Abs(num), y, t, s + j);
    NearestRatio(Scale(y, s + j), Pow2(t + 3), Abs(num), 1, Assemble(j, q));
    EncodeSumIs(negative, exponent, q);
    AssembleBound(j, q);
  }

  lemma AssembleBound(j: nat, q: nat)
    ensures Assemble(j, q) <= INFINITE
  {
  }

  lemma SumRatio(num: nat, y: nat, t: nat, k: nat)
    requires k >= t && Scale(num, 3) == Scale(y, k - t)
    ensures Scale(y, k) * 1 == num * Pow2(t + 3)
  {
    hide Scale, Pow2;
    ScaleScale(num, 3, t);
    ScaleScale(y, k - t, t);
    ScaleIs(num, t + 3);
  }

  /** Two values in order, with three guard digits, in units of the smaller exponent. */
  lemma OrderedTerms(c: nat, d: nat, a: nat, b: nat, e: nat, f: nat) returns (y: nat, t: nat)
    requires 1 <= f <= e && c == Scale(a, e - 1) && d == Scale(b, f - 1) && d <= c
    ensures t == e - f && y == Scale(8 * a, t) && 8 * b <= y
    ensures Scale(c, 3) == Scale(y, f - 1) && Scale(d, 3) == Scale(8 * b, f - 1)
  {
    hide Scale, Pow2;
    t := e - f;
    y := Scale(8 * a, t);
    Pow2Literals();
    ScaleIs(a, 3);
    ScaleIs(b, 3);
    ScaleScale(a, e - 1, 3);
    ScaleScale(a, 3, e - 1);
    ScaleScale(b, f - 1, 3);
    ScaleScale(b, 3, f - 1);
    ScaleScale(8 * a, t, f - 1);
    ScaleOrder(d, c, 3);
    ScaleOrder(8 * b, y, f - 1);
  }

  lemma EffectiveOrder(large: u32, small: u32)
    requires Magnitude(small) <= Magnitude(large)
    ensures EffectiveExponent(small) <= EffectiveExponent(large)
  {
    Fields(large);
    Fields(small);
    hide And, Shr;
  }

  lemma FiniteSum(large: u32, small: u32)
    requires IsFinite(large) && IsFinite(small) && Magnitude(small) <= Magnitude(large) && !IsZero(large)
    ensures var a, b := Coefficient(Magnitude(large)), Coefficient(Magnitude(small));
            && 0 <= b <= a && 0 < a
            && (Negative(large) == Negative(small) ==>
                  Exact(large) + Exact(small) == if Negative(large) then 0 - (a + b) else a + b)
            && (Negative(large) != Negative(small) ==>
                  Exact(large) + Exact(small) == if Negative(large) then 0 - (a - b) else a - b)
  {
    CoefficientMonotone(Magnitude(small), Magnitude(large));
    CoefficientPositive(Magnitude(large));
    hide Coefficient;
  }

  /** A shift of the significand by one place moves one unit of the exponent. */
  lemma ShiftOnce(m: nat, s: nat, significand: u32)
    requires significand == Scale(m, s) < 0x400_0000
    ensures Shl(significand, 1) == Scale(m, s + 1) == 2 * significand
  {
    Pow2Literals();
    HalfScale(m, s);
  }

  /** Shifts a difference left until its leading digit is in place or the exponent is least. */
  method NormalizeDifference(difference: u32, start: u32, ghost y: nat, ghost t: nat)
    returns (significand: u32, exponent: u32, ghost s: nat)
    requires 0 < difference < 0x800_0000 && 1 <= start
    requires y == Scale(difference, t) || difference >= 0x200_0000
    ensures significand == Scale(difference, s) < 0x800_0000 && 1 <= exponent <= start && s == start - exponent
    ensures y == Scale(difference, t) || s <= 1
    ensures exponent == 1 || significand >= 0x400_0000
  {
    hide *;
    significand, exponent, s := difference, start, 0;
    ScaleZero(difference);
    while significand < 0x400_0000 && exponent > 1
      invariant significand == Scale(difference, s) < 0x800_0000 && significand > 0
      invariant 1 <= exponent <= start && s == start - exponent
      invariant || y == Scale(difference, t)
                || (s == 0 && significand >= 0x200_0000)
                || (s == 1 && significand >= 0x400_0000)
      decreases exponent
    {
      ShiftOnce(difference, s, significand);
      SubOne(exponent);
      s := s + 1;
      significand := Shl(significand, 1);
      exponent := SubWord(exponent, 1);
    }
  }

  lemma SubOne(w: u32)
    requires w > 0
    ensures SubWord(w, 1) == w - 1
  {
  }

  method FiniteAddition(left: u32, right: u32) returns (word: u32)
    requires IsFinite(left) && IsFinite(right) && !(IsZero(left) && IsZero(right))
    ensures RoundedSum(Exact(left) + Exact(right), 1, false, word)
  {
    hide And, Or, Xor, Shl, Shr, Pow2, Coefficient, Scale, Jam, Sticky, EffectiveSignificand, EffectiveExponent,
         RoundGuard, EncodeSum, Exact, RoundsTo, ShiftRightJam;
    var large, small := left, right;
    if Magnitude(right) > Magnitude(left) {
      large, small := right, left;
    }
    var sign := And(large, 0x8000_0000);
    var exponent := EffectiveExponent(large);
    var smallExponent := EffectiveExponent(small);
    var significand := Shl(EffectiveSignificand(large), 3);
    var smallSignificand := Shl(EffectiveSignificand(small), 3);
    EffectiveValue(large);
    EffectiveValue(small);
    EffectiveOrder(large, small);
    FiniteSum(large, small);
    ghost var c, d := Coefficient(Magnitude(large)), Coefficient(Magnitude(small));
    ghost var yl, t := OrderedTerms(c, d, EffectiveSignificand(large), EffectiveSignificand(small),
                                    exponent, smallExponent);
    var aligned := ShiftRightJam(smallSignificand, SubWord(exponent, smallExponent));
    ShiftRightJamExact(smallSignificand, SubWord(exponent, smallExponent));
    AlignWords(EffectiveSignificand(large), EffectiveSignificand(small), t);
    SumScale(c, d, yl, smallSignificand, smallExponent - 1);
    SignsDiffer(large, small);
    ghost var y, m, s;
    if And(Xor(large, small), 0x8000_0000) == 0 {
      y, m, s := yl + smallSignificand, significand + aligned, 0;
      significand := AddWord(significand, aligned);
      if significand >= 0x800_0000 {
        CarriedSum(significand, y, t);
        ShiftRightJamExact(significand, 1);
        m, t := Jam(significand, 1), t + 1;
        significand := ShiftRightJam(significand, 1);
        exponent := AddWord(exponent, 1);
      }
      ScaleZero(m);
    } else {
      y, m := yl - smallSignificand, significand - aligned;
      DifferenceSign(m, y, t);
      significand := SubWord(significand, aligned);
      if significand == 0 {
        return 0;
      }
      significand, exponent, s := NormalizeDifference(significand, exponent, y, t);
    }
    RoundSum(Exact(left) + Exact(right), y, t, m, s, exponent, Negative(large), significand);
    word := EncodeSum(sign, exponent, RoundGuard(significand));
  }

  lemma SignsDiffer(large: u32, small: u32)
    ensures And(large, 0x8000_0000) == SignBit(Negative(large))
    ensures And(Xor(large, small), 0x8000_0000) == 0 <==> Negative(large) == Negative(small)
  {
    SignMask(large);
    SignMask(Xor(large, small));
    SignXor(large, small);
  }

  lemma CarriedSum(m: nat, y: nat, t: nat)
    requires Sticky(m, y, t) && 0x800_0000 <= m < 0x1000_0000
    ensures Sticky(Jam(m, 1), y, t + 1) && 0x400_0000 <= Jam(m, 1) < 0x800_0000
  {
    Pow2Literals();
    hide Sticky, Pow2;
    JamAgain(m, y, t);
  }

  lemma SumScale(c: nat, d: nat, yl: nat, ys: nat, k: nat)
    requires Scale(c, 3) == Scale(yl, k) && Scale(d, 3) == Scale(ys, k) && ys <= yl && d <= c
    ensures Scale(c + d, 3) == Scale(yl + ys, k)
    ensures Scale(c - d, 3) == Scale(yl - ys, k)
    ensures c == d <==> yl == ys
  {
    hide Scale;
    ScaleSum(c, d, 3);
    ScaleSum(yl, ys, k);
    ScaleSum(c - d, d, 3);
    ScaleSum(yl - ys, ys, k);
    ScaleOrder(c, d, 3);
    ScaleOrder(yl, ys, k);
  }

  /** The whole kernel: specials first, then one rounding of the exact sum. */
  method AddBinary32(left: u32, right: u32) returns (word: u32)
    ensures AdditionResult(left, right, word)
  {
    hide And, Xor, Shr, Coefficient, Exact, RoundedSum;
    var leftMagnitude := And(left, 0x7fff_ffff);
    var rightMagnitude := And(right, 0x7fff_ffff);
    SignMask(left);
    SignMask(right);
    SignMask(Xor(left, right));
    SignXor(left, right);
    if leftMagnitude > 0x7f80_0000 || rightMagnitude > 0x7f80_0000 {
      return 0x7fc0_0000;
    }
    if leftMagnitude == 0x7f80_0000 {
      if rightMagnitude == 0x7f80_0000 && Shr(Xor(left, right), 31) != 0 {
        return 0x7fc0_0000;
      }
      return left;
    }
    if rightMagnitude == 0x7f80_0000 {
      return right;
    }
    if leftMagnitude == 0 && rightMagnitude == 0 {
      ZeroSum(left, right);
      return And(And(left, right), 0x8000_0000);
    }
    word := FiniteAddition(left, right);
    NonzeroSum(left, right, word);
  }

  lemma ZeroSum(left: u32, right: u32)
    requires IsZero(left) && IsZero(right)
    ensures RoundedSum(Exact(left) + Exact(right), 1, Negative(left) && Negative(right),
                       And(And(left, right), 0x8000_0000))
  {
    SignMask(left);
    SignMask(right);
    var both := And(left, right);
    assert left == SignBit(Negative(left)) && right == SignBit(Negative(right));
    assert both == SignBit(Negative(left) && Negative(right)) by { SignMask(left); }
    SignMask(both);
  }

  /** Two negative operands, not both zero, never cancel. */
  lemma NonzeroSum(left: u32, right: u32, word: u32)
    requires IsFinite(left) && IsFinite(right) && !(IsZero(left) && IsZero(right))
    requires RoundedSum(Exact(left) + Exact(right), 1, false, word)
    ensures RoundedSum(Exact(left) + Exact(right), 1, Negative(left) && Negative(right), word)
  {
    CoefficientPositive(Magnitude(left));
    CoefficientPositive(Magnitude(right));
    hide Coefficient, RoundsTo;
  }
}
