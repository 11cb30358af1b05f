/** The WebGPU kernel for binary32 multiplication. */
module Multiplication {
  import opened Powers
  import opened Words
  import opened Binary32
  import opened Rounding
  import opened WideMagnitudes
  import opened FusedMultiplyAdd

  function RoundProduct(product: Vec2, distance: u32): u32
    requires distance >= 23
  {
    if distance > 48 then 0
    else if distance < 32 then
      var rounded := Or(Shr(product.x, distance), Shl(product.y, 32 - distance));
      var remainder := And(product.x, SubWord(Shl(1, distance), 1));
      var half := Shl(1, distance - 1);
      RoundTie(rounded, remainder > half, remainder == half)
    else if distance == 32 then
      RoundTie(product.y, product.x > 0x8000_0000, product.x == 0x8000_0000)
    else
      var highDistance := distance - 32;
      var rounded := Shr(product.y, highDistance);
      var remainder := And(product.y, SubWord(Shl(1, highDistance), 1));
      var half := Shl(1, highDistance - 1);
      RoundTie(rounded, remainder > half || (remainder == half && product.x != 0),
               remainder == half && product.x == 0)
  }

  function RoundTie(rounded: u32, aboveHalf: bool, exactlyHalf: bool): u32 {
    AddWord(rounded, Select(aboveHalf || (exactlyHalf && And(rounded, 1) != 0)))
  }

  lemma RoundTieIs(rounded: u32, aboveHalf: bool, exactlyHalf: bool)
    requires rounded < 0xffff_ffff
    ensures RoundTie(rounded, aboveHalf, exactlyHalf)
         == if aboveHalf || (exactlyHalf && rounded % 2 == 1) then rounded + 1 else rounded
  {
    AndOne(rounded);
    hide And;
  }

  lemma RoundProductExact(product: Vec2, distance: u32)
    requires distance >= 23 && Wide(product) < Pow2(48)
    ensures RoundProduct(product, distance) == RoundHalfEven(Wide(product), distance)
  {
    if distance > 48 {
      RoundVanishes(Wide(product), distance);
    } else if distance < 32 {
      RoundShort(product, distance);
    } else {
      RoundLong(product, distance);
    }
  }

  lemma RoundVanishes(x: nat, distance: nat)
    requires x < Pow2(48) && distance > 48
    ensures RoundHalfEven(x, distance) == 0
  {
    Pow2Double(48);
    Pow2Monotone(49, distance);
    hide Pow2;
    SplitUnique(x, distance, 0, x);
  }

  lemma RoundShort(product: Vec2, distance: u32)
    requires 23 <= distance < 32 && Wide(product) < Pow2(48)
    ensures RoundProduct(product, distance) == RoundHalfEven(Wide(product), distance)
  {
    hide High, Low, Pow2, Shl, Shr, And, Or, Wide, RoundTie, Scale;
    var k := 32 - distance;
    JamShortSplit(product, distance);
    QuotientSmall(Wide(product), distance);
    ShlSplit(product.y, k);
    OrLowDigits(Shr(product.x, distance), Low(product.y, distance), k);
    PowerMask(distance);
    PowerMask(distance - 1);
    Pow2Double(distance - 1);
    MaskLow(product.x, distance);
    var remainder, half := Low(product.x, distance), Pow2(distance - 1);
    RoundTieIs(High(Wide(product), distance), remainder > half, remainder == half);
  }

  lemma QuotientSmall(x: nat, distance: nat)
    requires x < Pow2(48) && distance >= 23
    ensures High(x, distance) < 0x200_0000
  {
    hide Pow2, High;
    Pow2Literals();
    Pow2Add(25, 23);
    Pow2Double(24);
    Pow2Monotone(23, distance);
    HighBound(x, distance, 0x200_0000);
  }

  lemma RoundLong(product: Vec2, distance: u32)
    requires 32 <= distance <= 48 && Wide(product) < Pow2(48)
    ensures RoundProduct(product, distance) == RoundHalfEven(Wide(product), distance)
  {
    hide High, Low, Pow2, Shl, Shr, And, Or, Wide, RoundTie, Scale;
    QuotientSmall(Wide(product), distance);
    if distance == 32 {
      WideSplit(product);
      Pow2Literals();
      RoundTieIs(product.y, product.x > 0x8000_0000, product.x == 0x8000_0000);
    } else {
      var shift := distance - 32;
      PowerMask(shift);
      PowerMask(shift - 1);
      MaskLow(product.y, shift);
      RoundWords(product, shift);
      Pow2Double(shift - 1);
      var remainder, half := Low(product.y, shift), Pow2(shift - 1);
      RoundTieIs(Shr(product.y, shift), remainder > half || (remainder == half && product.x != 0),
                 remainder == half && product.x == 0);
    }
  }

  /** multiplication of section 5.4.1, with this implementation's one NaN. */
  predicate MultiplicationResult(left: u32, right: u32, word: u32) {
    if IsNaN(left) || IsNaN(right) then word == QUIET_NAN
    else if IsInfinite(left) || IsInfinite(right) then
      if IsZero(left) || IsZero(right) then word == QUIET_NAN
      else word == SignBit(ProductNegative(left, right)) + INFINITE
    else RoundedSum(Exact(left) * Exact(right), Pow2(149), ProductNegative(left, right), word)
  }

  /** A nonzero finite magnitude with its hidden digit in place, at its biased exponent. */
  function NormalizeFactor(m: u32): (n: NormalBinary32)
    requires 0 < m < 0x7f80_0000
    ensures -22 <= n.exponent <= 254 && 0x80_0000 <= n.significand < 0x100_0000
  {
    FactorFields(m);
    var exponent := Shr(m, 23);
    var significand := And(m, 0x7f_ffff);
    if exponent == 0 then
      SubnormalShift(significand);
      var shift := SubWord(CountLeadingZeros(significand), 8);
      NormalBinary32(Shl(significand, shift), 1 - shift)
    else
      OrHidden(significand);
      NormalBinary32(Or(significand, 0x80_0000), exponent)
  }

  lemma FactorFields(m: u32)
    ensures Shr(m, 23) == m / 0x80_0000
    ensures And(m, 0x7f_ffff) == m % 0x80_0000
  {
    Pow2Literals();
    AndMask(m, 23);
    hide BitAnd, Pow2;
  }

  lemma NormalizedFactor(m: u32)
    requires 0 < m < 0x7f80_0000
    ensures Scale(Coefficient(m), 23) == Scale(NormalizeFactor(m).significand, NormalizeFactor(m).exponent + 22)
  {
    FactorFields(m);
    hide And, Shr, Shl, Or, Pow2, Scale, CountLeadingZeros;
    if m >= 0x80_0000 {
      OrHidden(m % 0x80_0000);
      ScaleScale(0x80_0000 + m % 0x80_0000, m / 0x80_0000 - 1, 23);
    } else {
      SubnormalShift(m);
      var shift := SubWord(CountLeadingZeros(m), 8);
      ScaleScale(m, shift, 23 - shift);
    }
  }

  function EncodeProduct(sign: u32, exponent: i32, rounded: u32): u32
    requires -1000 <= exponent <= 1000
  {
    var exponent' := if exponent <= 0 then Select(rounded >= 0x80_0000) else exponent;
    var carried := rounded >= 0x100_0000;
    var rounded' := if carried then Shr(rounded, 1) else rounded;
    var exponent'' := if carried then exponent' + 1 else exponent';
    if exponent'' >= 255 then Or(sign, 0x7f80_0000)
    else Or(Or(sign, Shl(exponent'', 23)), And(rounded', 0x7f_ffff))
  }

  lemma EncodeProductIs(negative: bool, exponent: i32, q: u32)
    requires -1000 <= exponent <= 1000
    requires if exponent >= 1 then 0x80_0000 <= q <= 0x100_0000 else q <= 0x80_0000
    ensures EncodeProduct(SignBit(negative), exponent, q)
         == SignBit(negative) + Assemble(Max(exponent, 1) - 1, q)
  {
    hide Shr, Or, Shl, And, Pow2;
    HalveCarried();
    var carried := q == 0x100_0000;
    var e := if exponent <= 0 then Select(q >= 0x80_0000) else if carried then exponent + 1 else exponent;
    OrSign(negative, 0x7f80_0000);
    if e < 255 {
      PackFields(negative, e, if carried then 0x80_0000 else q);
    }
  }

  /** One rounding at the distance the exponent asks for rounds the exact product. */
  lemma RoundedProduct(num: nat, product: nat, exponent: int, extra: nat, distance: nat, q: nat)
    requires extra <= 1 && Pow2(46 + extra) <= product < Pow2(47 + extra)
    requires exponent - extra >= -171 && Scale(num, 46) == Scale(product, exponent - extra + 171)
    requires distance == 23 + extra + Max(0, 1 - exponent)
    requires q == RoundHalfEven(product, distance)
    ensures Nearest(num, Pow2(149), Assemble(Max(exponent, 1) - 1, q))
    ensures if exponent >= 1 then 0x80_0000 <= q <= 0x100_0000 else q <= 0x80_0000
  {
    hide Scale, Pow2, Nearest, Assemble, RoundHalfEven;
    RoundedProductAt(num, product, exponent - extra + 171, extra, distance, Max(exponent, 1) - 1, q);
  }

  lemma RoundedProductAt(num: nat, product: nat, b: nat, extra: nat, distance: nat, j: nat, q: nat)
    requires extra <= 1 && Pow2(46 + extra) <= product < Pow2(47 + extra)
    requires Scale(num, 46) == Scale(product, b) && b + distance == j + 195
    requires distance >= 23 + extra && (j == 0 || distance == 23 + extra)
    requires q == RoundHalfEven(product, distance)
    ensures Nearest(num, Pow2(149), Assemble(j, q))
    ensures if distance == 23 + extra then 0x80_0000 <= q <= 0x100_0000 else q <= 0x80_0000
  {
    RoundHalfEvenNearest(product, distance);
    hide *;
    ProductSignificand(extra, distance);
    NearestEvenBetween(product, Pow2(distance), q, 0x80_0000, 0x100_0000);
    NearestEvenBetween(product, Pow2(distance), q, 0, 0x80_0000);
    AssembleNearest(product, distance, j, q);
    ProductRatio(num, product, b, distance, j);
    NearestRatio(Scale(product, j), Pow2(distance), num, Pow2(149), Assemble(j, q));
  }

  lemma ProductSignificand(extra: nat, distance: nat)
    requires distance >= 23 + extra
    ensures Pow2(47 + extra) <= 0x100_0000 * Pow2(distance)
    ensures distance == 23 + extra ==> Pow2(46 + extra) == 0x80_0000 * Pow2(distance)
    ensures distance > 23 + extra ==> Pow2(47 + extra) <= 0x80_0000 * Pow2(distance)
  {
    hide Pow2;
    Pow2Literals();
    Pow2Add(24, 23 + extra);
    Pow2Add(23, 23 + extra);
    Pow2Double(23 + extra);
    Pow2Monotone(23 + extra, distance);
    if distance > 23 + extra {
      Pow2Monotone(24 + extra, distance);
    }
  }

  lemma ProductRatio(num: nat, product: nat, b: nat, distance: nat, j: nat)
    requires Scale(num, 46) == Scale(product, b) && b + distance == j + 195
    ensures Scale(product, j) * Pow2(149) == num * Pow2(distance)
  {
    hide Scale, Pow2;
    ScaleScale(num, 46, distance);
    ScaleScale(num, distance, 46);
    ScaleScale(product, b, distance);
    ScaleScale(product, j, 149);
    ScaleScale(product, j + 149, 46);
    ScaleOrder(Scale(num, distance), Scale(product, j + 149), 46);
    ScaleIs(num, distance);
    ScaleIs(Scale(product, j), 149);
  }

  /** The exact product of two factors and the place of its leading digit. */
  lemma FactorProduct(a: u32, b: u32, product: Vec2, exponent: int) returns (num: nat)
    requires 0 < a < 0x7f80_0000 && 0 < b < 0x7f80_0000
    requires product == SignificandProduct(NormalizeFactor(a).significand, NormalizeFactor(b).significand)
    requires exponent == NormalizeFactor(a).exponent + NormalizeFactor(b).exponent - 127
                         + Select(product.y >= 0x8000)
    ensures num == Coefficient(a) * Coefficient(b) && num > 0
    ensures var extra := Select(product.y >= 0x8000);
            && Pow2(46 + extra) <= Wide(product) < Pow2(47 + extra)
            && exponent - extra >= -171 && Scale(num, 46) == Scale(Wide(product), exponent - extra + 171)
  {
    hide Scale, Pow2, NormalizeFactor, Coefficient, Wide, SignificandProduct;
    var f, g := NormalizeFactor(a), NormalizeFactor(b);
    NormalizedFactor(a);
    NormalizedFactor(b);
    CoefficientPositive(a);
    CoefficientPositive(b);
    MulStrict(0, Coefficient(a), Coefficient(b));
    num := Coefficient(a) * Coefficient(b);
    SignificandProductExact(f.significand, g.significand);
    ProductRange(f.significand, g.significand);
    ProductPlaceOf(product);
    ProductScale(Coefficient(a), Coefficient(b), f.significand, g.significand, f.exponent + 22, g.exponent + 22, 0);
  }

  lemma ProductPlaceOf(product: Vec2)
    requires Pow2(46) <= Wide(product) < Pow2(48)
    ensures var extra := Select(product.y >= 0x8000);
            Pow2(46 + extra) <= Wide(product) < Pow2(47 + extra)
  {
    Pow2WideLiterals();
    hide Pow2;
  }

  lemma ExactProduct(left: u32, right: u32)
    requires IsFinite(left) && IsFinite(right)
    ensures Exact(left) * Exact(right)
         == if ProductNegative(left, right) then 0 - Coefficient(Magnitude(left)) * Coefficient(Magnitude(right))
            else Coefficient(Magnitude(left)) * Coefficient(Magnitude(right))
  {
    hide Coefficient;
    SignedProduct(Coefficient(Magnitude(left)), Coefficient(Magnitude(right)));
  }

  lemma SignedMagnitude(num: nat, negative: bool, magnitude: nat, word: u32)
    requires num > 0 && Nearest(num, Pow2(149), magnitude) && word == SignBit(negative) + magnitude
    ensures RoundsTo(if negative then 0 - num else num, Pow2(149), word)
  {
    hide Coefficient, Pow2;
  }

  lemma SignedProductResult(left: u32, right: u32, num: nat, magnitude: nat, word: u32)
    requires IsFinite(left) && IsFinite(right) && num > 0
    requires num == Coefficient(Magnitude(left)) * Coefficient(Magnitude(right))
    requires Nearest(num, Pow2(149), magnitude)
    requires word == SignBit(ProductNegative(left, right)) + magnitude
    ensures RoundedSum(Exact(left) * Exact(right), Pow2(149), ProductNegative(left, right), word)
  {
    hide Coefficient, Pow2, Exact, Nearest, RoundsTo;
    ExactProduct(left, right);
    SignedMagnitude(num, ProductNegative(left, right), magnitude, word);
  }

  method MultiplyBinary32(left: u32, right: u32) returns (word: u32)
    ensures MultiplicationResult(left, right, word)
  {
    hide And, Or, Xor, Shr, Shl, Coefficient, Exact, RoundedSum, SignBit, ProductNegative, NormalizeFactor, Scale, Pow2,
         SignificandProduct, Wide, RoundProduct, EncodeProduct, Nearest, Assemble, RoundHalfEven;
    var a := And(left, 0x7fff_ffff);
    var b := And(right, 0x7fff_ffff);
    var sign := And(Xor(left, right), 0x8000_0000);
    SpecialFields(left, left, right);
    SpecialFields(right, left, right);
    if a > 0x7f80_0000 || b > 0x7f80_0000 {
      return 0x7fc0_0000;
    }
    if a == 0x7f80_0000 || b == 0x7f80_0000 {
      if a == 0 || b == 0 {
        return 0x7fc0_0000;
      }
      return Or(sign, 0x7f80_0000);
    }
    if a == 0 || b == 0 {
      ZeroFactor(left, right);
      return sign;
    }
    var left', right' := NormalizeFactor(a), NormalizeFactor(b);
    var product := SignificandProduct(left'.significand, right'.significand);
    var extra := Select(product.y >= 0x8000);
    var exponent := left'.exponent + right'.exponent - 127 + extra;
    var distance := 23 + extra + Max(0, 1 - exponent);
    var rounded := RoundProduct(product, distance);
    ghost var num := FactorProduct(a, b, product, exponent);
    ProductBelow(product, extra);
    RoundProductExact(product, distance);
    RoundedProduct(num, Wide(product), exponent, extra, distance, rounded);
    EncodeProductIs(ProductNegative(left, right), exponent, rounded);
    word := EncodeProduct(sign, exponent, rounded);
    SignedProductResult(left, right, num, Assemble(Max(exponent, 1) - 1, rounded), word);
  }

  lemma ProductBelow(product: Vec2, extra: nat)
    requires extra <= 1 && Wide(product) < Pow2(47 + extra)
    ensures Wide(product) < Pow2(48)
  {
    Pow2Monotone(47 + extra, 48);
    hide Pow2;
  }

  lemma ZeroFactor(left: u32, right: u32)
    requires IsFinite(left) && IsFinite(right) && (IsZero(left) || IsZero(right))
    ensures RoundedSum(Exact(left) * Exact(right), Pow2(149), ProductNegative(left, right),
                       SignBit(ProductNegative(left, right)))
  {
    CoefficientPositive(Magnitude(left));
    CoefficientPositive(Magnitude(right));
    hide Coefficient, Pow2;
    assert Exact(left) == 0 || Exact(right) == 0;
    assert Exact(left) * Exact(right) == 0;
  }
}
