/** The WebGPU kernel for parameter + gradient * alpha, rounded once. */
module FusedMultiplyAdd {
  import opened Powers
  import opened Words
  import opened Binary32
  import opened Rounding
  import opened WideMagnitudes

  datatype NormalBinary32 = NormalBinary32(significand: u32, exponent: i32)

  function Max(a: int, b: int): (m: int)
    ensures m >= a && m >= b && (m == a || m == b)
  {
    if a >= b then a else b
  }

  function NormalizeBinary32(word: u32): (n: NormalBinary32)
    ensures -149 <= n.exponent <= 128 && n.significand < 0x100_0000
    ensures n.significand == 0 || n.significand >= 0x80_0000
  {
    Fields(word);
    var exponent := And(Shr(word, 23), 255);
    var significand := And(word, 0x7f_ffff);
    if exponent != 0 then
      OrHidden(significand);
      NormalBinary32(Or(significand, 0x80_0000), exponent - 127)
    else if significand == 0 then NormalBinary32(0, -126)
    else
      SubnormalShift(significand);
      var shift := SubWord(CountLeadingZeros(significand), 8);
      NormalBinary32(Shl(significand, shift), -126 - shift)
  }

  lemma SubnormalShift(significand: u32)
    requires 0 < significand < 0x80_0000
    ensures var shift := SubWord(CountLeadingZeros(significand), 8);
            && 1 <= shift <= 23
            && Shl(significand, shift) == Scale(significand, shift)
            && 0x80_0000 <= Scale(significand, shift) < 0x100_0000
  {
    Pow2Literals();
    BitLengthBound(significand, 23);
    var n := BitLength(significand);
    var shift := 24 - n;
    ScaleOrder(Pow2(n - 1), significand, shift);
    ScaleOrder(significand, Pow2(n), shift);
    ScalePow2(n - 1, shift);
    ScalePow2(n, shift);
    hide BitLength, Pow2, Scale;
    assert CountLeadingZeros(significand) == 32 - n;
    assert SubWord(CountLeadingZeros(significand), 8) == shift;
    ShlExact(significand, shift);
  }

  lemma Fields(word: u32)
    ensures And(Shr(word, 23), 255) == Magnitude(word) / 0x80_0000
    ensures And(word, 0x7f_ffff) == Magnitude(word) % 0x80_0000
  {
    Pow2Literals();
    hide BitAnd, Pow2;
    AndMask(word, 23);
    AndMask(High(word, 23), 8);
    assert High(word, 23) == word / 0x80_0000;
    assert Low(word, 23) == word % 0x80_0000;
  }

  /** Normalizing keeps the value: significand * 2^(exponent - 23). */
  lemma Normalized(word: u32)
    requires IsFinite(word)
    ensures var n := NormalizeBinary32(word);
            && n.exponent <= 127
            && (n.significand == 0 <==> IsZero(word))
            && Scale(Coefficient(Magnitude(word)), 23) == Scale(n.significand, n.exponent + 149)
  {
    Fields(word);
    var m := Magnitude(word);
    var n := NormalizeBinary32(word);
    hide And, Shr, Shl, Or, Pow2, Scale, CountLeadingZeros;
    if m >= 0x80_0000 {
      OrHidden(m % 0x80_0000);
      ScaleScale(0x80_0000 + m % 0x80_0000, m / 0x80_0000 - 1, 23);
    } else if m == 0 {
      ScalePow2(0, 23);
      assert Scale(0, 23) == 0 == Scale(0, n.exponent + 149) by { ScalePow2(0, 23); ScalePow2(0, n.exponent + 149); }
    } else {
      SubnormalShift(m);
      var shift := SubWord(CountLeadingZeros(m), 8);
      ScaleScale(m, shift, 23 - shift);
    }
  }

  lemma OrHidden(fraction: u32)
    requires fraction < 0x80_0000
    ensures Or(fraction, 0x80_0000) == fraction + 0x80_0000
  {
    Pow2Literals();
    OrDisjoint(1, fraction, 23);
    OrCommutes(fraction, 0x80_0000);
  }

  /** The product p * 2^149 + g * alpha of the exact operands, in units of 2^-298. */
  function ExactSum(p: u32, g: u32, alpha: u32): int
    requires IsFinite(p) && IsFinite(g) && IsFinite(alpha)
  {
    Scale(Exact(p), 149) + Exact(g) * Exact(alpha)
  }

  function ProductNegative(g: u32, alpha: u32): bool { Negative(g) != Negative(alpha) }

  /** fusedMultiplyAdd of section 5.4.1, with this implementation's one NaN. */
  predicate FusedMultiplyAddResult(p: u32, g: u32, alpha: u32, word: u32) {
    if IsNaN(p) || IsNaN(g) || IsNaN(alpha) then word == QUIET_NAN
    else if IsInfinite(g) || IsInfinite(alpha) then
      if IsZero(g) || IsZero(alpha) || (IsInfinite(p) && Negative(p) != ProductNegative(g, alpha))
      then word == QUIET_NAN
      else word == SignBit(ProductNegative(g, alpha)) + INFINITE
    else if IsInfinite(p) then word == p
    else RoundedSum(ExactSum(p, g, alpha), Pow2(149), Negative(p) && ProductNegative(g, alpha), word)
  }

  /** The jammed magnitudes a and b stand for yp / 2^t and yq / 2^t, and so do their sum and difference. */
  predicate Aligned(a: int, b: int, yp: int, yq: int, t: nat) {
    && Sticky(a + b, yp + yq, t)
    && Sticky(a - b, yp - yq, t)
    && (yp - yq == Scale(a - b, t) || a - b >= Pow2(60) || a - b <= 0 - Pow2(60))
    && a < Pow2(62) && b < Pow2(62) && a + b >= Pow2(61)
  }

  /**
   * The operands aligned at exponent e: yp and yq are their exact magnitudes in
   * units of 2^(e - t), and the jammed magnitudes add and subtract as they do.
   */
  lemma Align(p: nat, q: nat, ep: int, eq: int, e: int)
    returns (yp: nat, yq: nat, t: nat)
    requires p == 0 || Pow2(61) <= p < Pow2(62)
    requires Pow2(61) <= q < Pow2(62)
    requires Low(p, 14) == 0 && Low(q, 14) == 0
    requires ep >= -300 && eq >= -300
    requires e == if p == 0 then eq else Max(eq, ep)
    ensures e - t >= -300
    ensures Scale(p, ep + 400) == Scale(yp, e - t + 400)
    ensures Scale(q, eq + 400) == Scale(yq, e - t + 400)
    ensures Aligned(Jam(p, Max(0, e - ep)), Jam(q, Max(0, e - eq)), yp, yq, t)
  {
    hide Low, Scale, Pow2, Jam, Sticky;
    if p == 0 {
      yp, yq, t := 0, q, 0;
      ScalePow2(0, ep + 400);
      ScalePow2(0, eq + 400);
      JamZero(Max(0, e - ep));
      JamNone(q);
      StickyExact(q);
      StickyExact(0 - q);
      Pow2Monotone(61, 62);
    } else if ep <= eq {
      t := eq - ep;
      yp, yq := p, Scale(q, t);
      ScaleScale(q, t, ep + 400);
      JamNone(q);
      AlignOne(q, p, t);
    } else {
      t := ep - eq;
      yp, yq := Scale(p, t), q;
      ScaleScale(p, t, eq + 400);
      JamNone(p);
      AlignOne(p, q, t);
      StickyNegate(p - Jam(q, t), yp - yq, t);
    }
  }

  lemma JamZero(d: nat)
    ensures Jam(0, d) == 0
  {
    SplitUnique(0, d, 0, 0);
  }

  lemma JamNone(x: nat)
    ensures Jam(x, 0) == x
  {
    SplitUnique(x, 0, x, 0);
  }

  lemma StickyExact(x: int)
    ensures Sticky(x, x, 0) && Scale(x, 0) == x
  {
  }

  /** The larger operand keeps its place and the smaller one is jammed by t. */
  lemma AlignOne(large: nat, small: nat, t: nat)
    requires Pow2(61) <= large < Pow2(62) && Pow2(61) <= small < Pow2(62)
    requires Low(large, 14) == 0 && Low(small, 14) == 0
    ensures Sticky(Jam(small, t) + large, small + Scale(large, t), t)
    ensures Sticky(large - Jam(small, t), Scale(large, t) - small, t)
    ensures Sticky(Jam(small, t) - large, small - Scale(large, t), t)
    ensures || (Scale(large, t) - small == Scale(large - Jam(small, t), t)
                && small - Scale(large, t) == Scale(Jam(small, t) - large, t))
            || large - Jam(small, t) >= Pow2(60)
    ensures Jam(small, t) < Pow2(62)
  {
    hide *;
    LowEven(large, 14);
    AlignSticky(large, small, t);
    AlignExact(large, small, t);
  }

  lemma AlignSticky(large: nat, small: nat, t: nat)
    requires large % 2 == 0
    ensures Sticky(Jam(small, t) + large, small + Scale(large, t), t)
    ensures Sticky(large - Jam(small, t), Scale(large, t) - small, t)
    ensures Sticky(Jam(small, t) - large, small - Scale(large, t), t)
  {
    hide *;
    JamSticky(small, t);
    StickyAdd(Jam(small, t), small, t, large);
    StickyNegate(large - Jam(small, t), Scale(large, t) - small, t);
  }

  /** Digits are lost only by an operand too small to cancel more than one digit. */
  lemma AlignExact(large: nat, small: nat, t: nat)
    requires Pow2(61) <= large && small < Pow2(62) && Low(small, 14) == 0
    ensures || (Scale(large, t) - small == Scale(large - Jam(small, t), t)
                && small - Scale(large, t) == Scale(Jam(small, t) - large, t))
            || large - Jam(small, t) >= Pow2(60)
    ensures Jam(small, t) < Pow2(62)
  {
    hide *;
    var j := Jam(small, t);
    if t <= 14 {
      JamExact(small, 14, t);
      ScaleSum(large - j, j, t);
      ScaleSum(j - large, large, t);
      JamBelow(small, t, 62);
    } else {
      JamSmall(small, t);
      Pow2Double(60);
      Pow2Monotone(48, 60);
      Pow2Monotone(60, 62);
      Pow2Strict(60, 62);
    }
  }

  lemma JamBelow(x: nat, d: nat, bits: nat)
    requires x < Pow2(bits) && d < bits
    ensures Jam(x, d) < Pow2(bits)
  {
    hide *;
    if d == 0 {
      JamNone(x);
    } else {
      JamBound(x, d, bits);
      Pow2Monotone(bits - d, bits);
    }
  }

  lemma LowEven(x: nat, k: nat)
    requires k > 0 && Low(x, k) == 0
    ensures x % 2 == 0
  {
    SplitStep(x, k - 1);
    hide Low;
  }

  lemma JamSmall(x: nat, t: nat)
    requires t > 14 && x < Pow2(62)
    ensures Jam(x, t) <= Pow2(48)
  {
    hide *;
    if t < 62 {
      JamBound(x, t, 62);
      Pow2Monotone(62 - t, 48);
    } else {
      Pow2Monotone(62, t);
      JamBit(x, t);
    }
  }

  lemma JamBit(x: nat, t: nat)
    requires x < Pow2(t)
    ensures Jam(x, t) <= 1
  {
    hide Low, Scale;
    SplitUnique(x, t, 0, x);
  }

  /**
   * From the normalized magnitude at exponent e to the word, for either sign:
   * num, in units of 2^-298, is y * 2^(e + s - t - 163).
   */
  lemma Finish(num: nat, y: nat, t: nat, m: nat, s: nat, e: int, distance: nat, q: nat)
    requires Sticky(m, y, t) && (y == Scale(m, t) || s <= 1)
    requires Pow2(61) <= Scale(m, s) < Pow2(62)
    requires e + s - t >= -300 && Scale(num, 163) == Scale(y, e + s - t + 400)
    requires distance == 38 + Max(0, -126 - e)
    requires q == RoundHalfEven(Scale(m, s), distance)
    ensures Nearest(num, Pow2(149), Assemble(Max(0, e + 126), q))
    ensures if e >= -126 then 0x80_0000 <= q <= 0x100_0000 else q <= 0x80_0000
  {
    hide Sticky, Scale, Pow2, Nearest, Assemble, RoundHalfEven;
    FinishAt(num, y, t, m, s, e + s - t + 400, distance, Max(0, e + 126), q);
  }

  lemma FinishAt(num: nat, y: nat, t: nat, m: nat, s: nat, b: nat, distance: nat, j: nat, q: nat)
    requires Sticky(m, y, t) && (y == Scale(m, t) || s <= 1)
    requires Pow2(61) <= Scale(m, s) < Pow2(62)
    requires Scale(num, 163) == Scale(y, b)
    requires distance >= 38 && (j == 0 || distance == 38) && b + t + distance == s + j + 312
    requires q == RoundHalfEven(Scale(m, s), distance)
    ensures Nearest(num, Pow2(149), Assemble(j, q))
    ensures if distance == 38 then 0x80_0000 <= q <= 0x100_0000 else q <= 0x80_0000
  {
    RoundHalfEvenNearest(Scale(m, s), distance);
    hide *;
    SignificandRange(distance);
    RoundedRange(Scale(m, s), distance, q);
    StickyAssemble(m, y, t, s, distance, j, q);
    SameRatio(num, y, b, t + distance, s + j);
    NearestRatio(Scale(y, s + j), Pow2(t + distance), num, Pow2(149), Assemble(j, q));
  }

  lemma RoundedRange(x: nat, distance: nat, q: nat)
    requires NearestEven(x, Pow2(distance), q) && distance >= 38
    requires Pow2(61) <= x < Pow2(62)
    ensures if distance == 38 then 0x80_0000 <= q <= 0x100_0000 else q <= 0x80_0000
  {
    hide *;
    SignificandRange(distance);
    NearestEvenBetween(x, Pow2(distance), q, 0x80_0000, 0x100_0000);
    NearestEvenBetween(x, Pow2(distance), q, 0, 0x80_0000);
  }

  lemma SignificandRange(distance: nat)
    requires distance >= 38
    ensures Pow2(62) <= 0x100_0000 * Pow2(distance)
    ensures distance == 38 ==> Pow2(61) == 0x80_0000 * Pow2(distance)
    ensures distance > 38 ==> Pow2(62) <= 0x80_0000 * Pow2(distance)
  {
    Pow2Literals();
    Pow2Add(24, 38);
    Pow2Add(23, 38);
    Pow2Add(23, 39);
    Pow2Monotone(38, distance);
    if distance > 38 {
      Pow2Monotone(39, distance);
    }
    hide Pow2;
  }

  lemma SameRatio(num: nat, y: nat, b: nat, c: nat, a: nat)
    requires Scale(num, 163) == Scale(y, b) && b + c == a + 312
    ensures Scale(y, a) * Pow2(149) == num * Pow2(c)
  {
    hide Scale, Pow2;
    ScaleScale(num, 163, c);
    ScaleScale(num, c, 163);
    ScaleScale(y, b, c);
    ScaleScale(y, a, 149);
    ScaleScale(y, a + 149, 163);
    ScaleOrder(Scale(num, c), Scale(y, a + 149), 163);
    ScaleIs(num, c);
    ScaleIs(Scale(y, a), 149);
  }

  /** The magnitude of the parameter at exponent ep, its leading digit at 61. */
  lemma ParameterMagnitude(p: u32)
    requires IsFinite(p)
    ensures var n := NormalizeBinary32(p);
            var v := LeftMagnitude(Vec2(n.significand, 0), 38);
            && Wide(v) == Scale(n.significand, 38)
            && Low(Wide(v), 14) == 0
            && (Wide(v) == 0 <==> n.significand == 0)
            && (n.significand != 0 ==> Pow2(61) <= Wide(v) < Pow2(62))
            && Scale(Scale(Coefficient(Magnitude(p)), 149), 163) == Scale(Wide(v), n.exponent + 400)
  {
    hide Scale, Pow2, Low, NormalizeBinary32, Coefficient, LeftMagnitude, Wide;
    var n := NormalizeBinary32(p);
    Normalized(p);
    ScaledSignificand(n.significand, 38, 61, 14);
    WideIs(Vec2(n.significand, 0));
    Pow2WideLiterals();
    LeftMagnitudeExact(Vec2(n.significand, 0), 38);
    ParameterScale(Coefficient(Magnitude(p)), n.significand, n.exponent);
  }

  lemma ParameterScale(c: nat, significand: nat, exponent: int)
    requires exponent >= -149 && Scale(c, 23) == Scale(significand, exponent + 149)
    ensures Scale(Scale(c, 149), 163) == Scale(Scale(significand, 38), exponent + 400)
  {
    hide Scale;
    ScaleScale(c, 149, 163);
    ScaleScale(c, 23, 289);
    ScaleScale(significand, exponent + 149, 289);
    ScaleScale(significand, 38, exponent + 400);
  }

  lemma ScaledSignificand(significand: nat, k: nat, top: nat, zeros: nat)
    requires significand < 0x100_0000 && (significand != 0 ==> significand >= 0x80_0000)
    requires top == k + 23 && zeros <= k
    ensures significand == 0 ==> Scale(significand, k) == 0
    ensures significand != 0 ==> Pow2(top) <= Scale(significand, k)
    ensures Scale(significand, k) < Pow2(top + 1)
    ensures Low(Scale(significand, k), zeros) == 0
  {
    hide *;
    Pow2Literals();
    ScalePow2(23, k);
    ScalePow2(24, k);
    ScaleOrder(0x80_0000, significand, k);
    ScaleOrder(significand, 0x100_0000, k);
    ScaleScale(significand, k - zeros, zeros);
    LowOfScaled(Scale(significand, k - zeros), zeros);
  }

  lemma LowOfScaled(x: nat, k: nat)
    ensures Low(Scale(x, k), k) == 0
  {
    ScaleIs(x, k);
    SplitUnique(Scale(x, k), k, x, 0);
  }

  /** The product of two significands, shifted until its leading digit is at 61. */
  lemma ProductMagnitude(g: u32, alpha: u32, product: Vec2) returns (e: int)
    requires IsFinite(g) && IsFinite(alpha) && !IsZero(g) && !IsZero(alpha)
    requires product == ProductOf(g, alpha)
    ensures e == ProductExponent(g, alpha) + Select(product.y >= 0x8000) && -300 <= e <= 300
    ensures Scale(ProductCoefficient(g, alpha), 163) == Scale(Wide(ShiftedProduct(product)), e + 400)
    ensures Pow2(61) <= Wide(ShiftedProduct(product)) < Pow2(62)
    ensures Low(Wide(ShiftedProduct(product)), 14) == 0
  {
    hide Scale, Pow2, Low, ProductCoefficient, LeftMagnitude, Wide, ProductOf, ProductExponent;
    ProductValue(g, alpha);
    ProductShifted(product);
    var extra := Select(product.y >= 0x8000);
    e := ProductExponent(g, alpha) + extra;
    ScaleScale(Wide(product), 15 - extra, e + 400);
  }

  function ProductOf(g: u32, alpha: u32): Vec2 {
    SignificandProduct(NormalizeBinary32(g).significand, NormalizeBinary32(alpha).significand)
  }

  function ProductExponent(g: u32, alpha: u32): (e: i32)
    ensures -298 <= e <= 256
  {
    NormalizeBinary32(g).exponent + NormalizeBinary32(alpha).exponent
  }

  function ShiftedProduct(product: Vec2): Vec2 {
    LeftMagnitude(product, 15 - Select(product.y >= 0x8000))
  }

  lemma ProductShifted(product: Vec2)
    requires Pow2(46) <= Wide(product) < Pow2(48)
    ensures var extra := Select(product.y >= 0x8000);
            var v := LeftMagnitude(product, 15 - extra);
            && Wide(v) == Scale(Wide(product), 15 - extra)
            && Pow2(61) <= Wide(v) < Pow2(62)
            && Low(Wide(v), 14) == 0
  {
    hide Scale, Pow2, Low, LeftMagnitude, Wide;
    var extra := Select(product.y >= 0x8000);
    WideIs(product);
    ProductPlace(Wide(product), extra);
    LeftMagnitudeExact(product, 15 - extra);
  }

  /** The product of two magnitudes, in units of 2^-298. */
  function ProductCoefficient(g: u32, alpha: u32): nat
    requires IsFinite(g) && IsFinite(alpha)
  {
    ProductBound(0, 0, Coefficient(Magnitude(g)), Coefficient(Magnitude(alpha)));
    Coefficient(Magnitude(g)) * Coefficient(Magnitude(alpha))
  }

  lemma ProductValue(g: u32, alpha: u32)
    requires IsFinite(g) && IsFinite(alpha) && !IsZero(g) && !IsZero(alpha)
    ensures Pow2(46) <= Wide(ProductOf(g, alpha)) < Pow2(48)
    ensures Scale(ProductCoefficient(g, alpha), 163)
         == Scale(Wide(ProductOf(g, alpha)), ProductExponent(g, alpha) + 415)
  {
    hide Scale, Pow2, NormalizeBinary32, Coefficient, Wide, SignificandProduct;
    var gradient, coefficient := NormalizeBinary32(g), NormalizeBinary32(alpha);
    var a, b := gradient.significand, coefficient.significand;
    Normalized(g);
    Normalized(alpha);
    SignificandProductExact(a, b);
    ProductRange(a, b);
    ProductScale(Coefficient(Magnitude(g)), Coefficient(Magnitude(alpha)), a, b,
                 gradient.exponent + 149, coefficient.exponent + 149, 117);
  }

  lemma ProductRange(a: nat, b: nat)
    requires 0x80_0000 <= a < 0x100_0000 && 0x80_0000 <= b < 0x100_0000
    ensures Pow2(46) <= a * b < Pow2(48)
  {
    Pow2WideLiterals();
    hide Pow2;
    ProductBound(0x80_0000, 0x80_0000, a, b);
    ProductBound(a, b, 0xff_ffff, 0xff_ffff);
  }

  lemma ProductPlace(product: nat, extra: nat)
    requires Pow2(46) <= product < Pow2(48)
    requires extra == if product >= 0x8000 * 0x1_0000_0000 then 1 else 0
    ensures Pow2(61) <= Scale(product, 15 - extra) < Pow2(62)
    ensures Scale(product, 15 - extra) < 0x1_0000_0000_0000_0000
    ensures Low(Scale(product, 15 - extra), 14) == 0
  {
    hide *;
    Pow2WideLiterals();
    ScalePow2(46 + extra, 15 - extra);
    ScalePow2(47 + extra, 15 - extra);
    ScaleOrder(Pow2(46 + extra), product, 15 - extra);
    ScaleOrder(product, Pow2(47 + extra), 15 - extra);
    ScaleScale(product, 1 - extra, 14);
    LowOfScaled(Scale(product, 1 - extra), 14);
  }

  lemma ProductScale(c: nat, d: nat, a: nat, b: nat, i: nat, j: nat, k: nat)
    requires Scale(c, 23) == Scale(a, i) && Scale(d, 23) == Scale(b, j)
    ensures Scale(c * d, 46 + k) == Scale(a * b, i + j + k)
  {
    hide *;
    ScaleProduct(c, d, 23, 23);
    ScaleProduct(a, b, i, j);
    ScaleScale(c * d, 46, k);
    ScaleScale(a * b, i + j, k);
  }

  lemma ScaleProduct(a: int, b: int, i: nat, j: nat)
    ensures Scale(a, i) * Scale(b, j) == Scale(a * b, i + j)
  {
    var s, t := Pow2(i), Pow2(j);
    Pow2Add(i, j);
    MulAssoc(a * b, s, t);
    MulAssoc(a, s, Scale(b, j));
    MulAssoc(a, b, s);
    MulAssoc(a * s, b, t);
    hide Pow2;
  }

  lemma ExactSumIs(p: u32, g: u32, alpha: u32)
    requires IsFinite(p) && IsFinite(g) && IsFinite(alpha)
    ensures var parameter, product := Scale(Coefficient(Magnitude(p)), 149), ProductCoefficient(g, alpha);
            ExactSum(p, g, alpha) == (if Negative(p) then 0 - parameter else parameter)
                                   + (if ProductNegative(g, alpha) then 0 - product else product)
  {
    var c, d := Coefficient(Magnitude(g)), Coefficient(Magnitude(alpha));
    ScaleSum(Exact(p), 0 - Exact(p), 149);
    assert Scale(0, 149) == 0;
    hide Coefficient, Scale, Pow2;
    SignedProduct(c, d);
  }

  lemma SignedProduct(c: int, d: int)
    ensures (0 - c) * (0 - d) == c * d && (0 - c) * d == 0 - c * d && c * (0 - d) == 0 - c * d
  {
  }

  /** The fields of the rounded significand, which a carry may have widened. */
  function EncodeRounded(sign: u32, exponent: i32, rounded: u32): u32
    requires -1000 <= exponent <= 1000
  {
    var carried := rounded >= 0x100_0000;
    var rounded' := if carried then Shr(rounded, 1) else rounded;
    var exponent' := if carried then exponent + 1 else exponent;
    if exponent' >= 128 then Or(sign, 0x7f80_0000)
    else
      var field := if exponent' < -126 then Select(rounded' >= 0x80_0000) else Max(0, exponent' + 127);
      Or(Or(sign, Shl(field, 23)), And(rounded', 0x7f_ffff))
  }

  lemma EncodeRoundedIs(negative: bool, exponent: i32, q: u32)
    requires -1000 <= exponent <= 1000
    requires if exponent >= -126 then 0x80_0000 <= q <= 0x100_0000 else q <= 0x80_0000
    ensures EncodeRounded(SignBit(negative), exponent, q)
         == SignBit(negative) + Assemble(Max(0, exponent + 126), q)
  {
    hide Shr, Or, Shl, And, Pow2;
    var carried := q == 0x100_0000;
    HalveCarried();
    var e := if carried then exponent + 1 else exponent;
    var r := if carried then 0x80_0000 else q;
    OrSign(negative, 0x7f80_0000);
    if e < 128 {
      var field := if e < -126 then Select(r >= 0x80_0000) else Max(0, e + 127);
      PackFields(negative, field, r);
    }
  }

  lemma HalveCarried()
    ensures Shr(0x100_0000, 1) == 0x80_0000
  {
    Pow2Literals();
  }

  lemma PackFields(negative: bool, field: u32, significand: u32)
    requires field < 255
    ensures Or(Or(SignBit(negative), Shl(field, 23)), And(significand, 0x7f_ffff))
         == SignBit(negative) + field * 0x80_0000 + significand % 0x80_0000
  {
    Pow2Literals();
    AndMask(significand, 23);
    hide BitOr, Pow2, BitAnd;
    assert Shl(field, 23) == field * 0x80_0000;
    OrSign(negative, field * 0x80_0000);
    var high := (if negative then 256 else 0) + field;
    assert high * 0x80_0000 == SignBit(negative) + field * 0x80_0000;
    OrDisjoint(high, significand % 0x80_0000, 23);
  }

  /** Two terms of the same sign: the sum, jammed once more when it carries. */
  lemma SumOfTerms(a: nat, b: nat, y: nat, t: nat) returns (m: nat, t': nat)
    requires Sticky(a + b, y, t) && Pow2(61) <= a + b && a < Pow2(62) && b < Pow2(62)
    ensures if a + b >= Pow2(62) then m == Jam(a + b, 1) && t' == t + 1 else m == a + b && t' == t
    ensures Sticky(m, y, t') && Pow2(61) <= Scale(m, 0) < Pow2(62)
    ensures a + b < Pow2(63)
  {
    hide *;
    Pow2Double(62);
    if a + b >= Pow2(62) {
      m, t' := Jam(a + b, 1), t + 1;
      JamAgain(a + b, y, t);
      JamBound(a + b, 1, 63);
      JamAtLeast(a + b);
    } else {
      m, t' := a + b, t;
    }
    ScaleZero(m);
  }

  lemma JamAtLeast(x: nat)
    requires x >= Pow2(62)
    ensures Jam(x, 1) >= Pow2(61)
  {
    Pow2Double(61);
    Pow2Literals();
    hide Pow2;
  }

  /** The difference of two terms, normalized by the left shift of its top digit. */
  lemma DifferenceOfTerms(m: nat, y: int, t: nat, v: Vec2) returns (shift: u32)
    requires Sticky(m, y, t) && 0 < m < Pow2(62) && m == Wide(v)
    requires y == Scale(m, t) || m >= Pow2(60)
    ensures shift == SubWord(61, if v.y != 0 then SubWord(63, CountLeadingZeros(v.y))
                                 else SubWord(31, CountLeadingZeros(v.x)))
    ensures shift <= 61 && (y == Scale(m, t) || shift <= 1)
    ensures Pow2(61) <= Scale(m, shift) < Pow2(62) && y > 0
    ensures Wide(LeftMagnitude(v, shift)) == Scale(m, shift)
  {
    var top := TopDigit(v);
    shift := SubWord(61, top);
    assert shift == 61 - top;
    hide *;
    ScalePow2(top, shift);
    ScalePow2(top + 1, shift);
    ScaleOrder(Pow2(top), m, shift);
    ScaleOrder(m, Pow2(top + 1), shift);
    Pow2WideLiterals();
    LeftMagnitudeExact(v, shift);
    if m >= Pow2(60) && top < 60 {
      Pow2Monotone(top + 1, 60);
    }
    StickyPositive(m, y, t);
  }

  lemma StickyPositive(m: int, y: int, t: nat)
    requires Sticky(m, y, t) && m > 0
    ensures y > 0
  {
    ScaleOrder(0, m, t);
    ScaleOrder(0, m - 1, t);
    ScalePow2(0, t);
    hide Scale;
  }

  lemma TopDigit(v: Vec2) returns (top: u32)
    requires 0 < Wide(v) < Pow2(62)
    ensures top == if v.y != 0 then SubWord(63, CountLeadingZeros(v.y)) else SubWord(31, CountLeadingZeros(v.x))
    ensures top <= 61 && Pow2(top) <= Wide(v) < Pow2(top + 1)
  {
    hide Pow2, BitLength, Wide;
    Pow2Literals();
    Pow2WideLiterals();
    WideIs(v);
    if v.y != 0 {
      var n := BitLength(v.y);
      Pow2Double(30);
      BitLengthBound(v.y, 30);
      top := n + 31;
      Pow2Add(n - 1, 32);
      Pow2Add(n, 32);
    } else {
      BitLengthBound(v.x, 32);
      top := BitLength(v.x) - 1;
    }
  }

  lemma ProductTerms(g: u32, alpha: u32, product: Vec2)
    ensures ProductOf(g, alpha)
         == SignificandProduct(NormalizeBinary32(g).significand, NormalizeBinary32(alpha).significand)
    ensures ShiftedProduct(product) == LeftMagnitude(product, 15 - Select(product.y >= 0x8000))
    ensures ProductExponent(g, alpha) == NormalizeBinary32(g).exponent + NormalizeBinary32(alpha).exponent
  {
    hide SignificandProduct, NormalizeBinary32, LeftMagnitude;
  }

  /** A word is at least 2^30 in its high half exactly when the magnitude has 63 digits. */
  lemma WideCarries(v: Vec2)
    ensures v.y >= 0x4000_0000 <==> Wide(v) >= Pow2(62)
  {
    Pow2WideLiterals();
  }

  lemma SignsOf(p: u32, g: u32, alpha: u32)
    ensures And(p, 0x8000_0000) == SignBit(Negative(p))
    ensures And(Xor(g, alpha), 0x8000_0000) == SignBit(ProductNegative(g, alpha))
    ensures SignBit(Negative(p)) == SignBit(ProductNegative(g, alpha)) <==> Negative(p) == ProductNegative(g, alpha)
    ensures Negative(p) != ProductNegative(g, alpha) ==> SignBit(ProductNegative(g, alpha)) == SignBit(!Negative(p))
  {
    SignMask(p);
    SignMask(Xor(g, alpha));
    SignXor(g, alpha);
  }

  /** The exact terms scaled alike keep their sum, their difference and its sign. */
  lemma ScaledTerms(a: nat, b: nat, yp: nat, yq: nat, k: nat)
    requires Scale(a, 163) == Scale(yp, k) && Scale(b, 163) == Scale(yq, k)
    ensures Scale(a + b, 163) == Scale(yp + yq, k)
    ensures Scale(a - b, 163) == Scale(yp - yq, k)
    ensures Scale(b - a, 163) == Scale(yq - yp, k)
    ensures a > b <==> yp > yq
    ensures a == b <==> yp == yq
  {
    var d, e := a - b, yp - yq;
    ScaleSum(a, b, 163);
    ScaleSum(yp, yq, k);
    ScaleSum(a, 0 - b, 163);
    ScaleSum(b, 0 - b, 163);
    ScaleSum(b, 0 - a, 163);
    ScaleSum(a, 0 - a, 163);
    ScaleSum(yp, 0 - yq, k);
    ScaleSum(yq, 0 - yq, k);
    ScaleSum(yq, 0 - yp, k);
    ScaleSum(yp, 0 - yp, k);
    ScaleOrder(a, b, 163);
    ScaleOrder(b, a, 163);
    ScaleOrder(yp, yq, k);
    ScaleOrder(yq, yp, k);
    ScalePow2(0, 163);
    ScalePow2(0, k);
    hide Scale;
  }

  /** Terms of one sign: the sum, jammed once more when it carries. */
  lemma SameSign(p: u32, g: u32, alpha: u32, a: nat, b: nat, yp: nat, yq: nat, t: nat, e: int)
    returns (m: nat, t': nat)
    requires IsFinite(p) && IsFinite(g) && IsFinite(alpha)
    requires Negative(p) == ProductNegative(g, alpha)
    requires Aligned(a, b, yp, yq, t) && e - t >= -300
    requires Scale(Scale(Coefficient(Magnitude(p)), 149), 163) == Scale(yp, e - t + 400)
    requires Scale(ProductCoefficient(g, alpha), 163) == Scale(yq, e - t + 400)
    ensures a + b < Pow2(64)
    ensures if a + b >= Pow2(62) then m == Jam(a + b, 1) && t' == t + 1 else m == a + b && t' == t
    ensures Sticky(m, yp + yq, t') && Pow2(61) <= Scale(m, 0) < Pow2(62) && Scale(m, 0) == m
    ensures Scale(Abs(ExactSum(p, g, alpha)), 163) == Scale(yp + yq, e - t + 400)
    ensures Negative(p) == (ExactSum(p, g, alpha) < 0) && ExactSum(p, g, alpha) != 0
  {
    hide Scale, Pow2, Coefficient, ProductCoefficient, ExactSum, Jam, Sticky;
    ExactSumIs(p, g, alpha);
    m, t' := SumOfTerms(a, b, yp + yq, t);
    Pow2Double(63);
    ScaleZero(m);
    ScaledTerms(Scale(Coefficient(Magnitude(p)), 149), ProductCoefficient(g, alpha), yp, yq, e - t + 400);
    Pow2Monotone(1, 61);
    Pow2Literals();
    StickyPositive(m, yp + yq, t');
    ScaledPositive(Scale(Coefficient(Magnitude(p)), 149) + ProductCoefficient(g, alpha), yp + yq, e - t + 400);
  }

  lemma ScaledPositive(num: int, y: int, k: nat)
    requires Scale(num, 163) == Scale(y, k) && y > 0
    ensures num > 0
  {
    ScaleOrder(0, y, k);
    ScaleOrder(0, num, 163);
    ScalePow2(0, k);
    ScalePow2(0, 163);
    hide Scale;
  }

  /** Terms of opposite signs: which one is larger, and by how much. */
  lemma OppositeSigns(p: u32, g: u32, alpha: u32, a: nat, b: nat, yp: nat, yq: nat, t: nat, e: int)
    returns (m: nat, y: nat)
    requires IsFinite(p) && IsFinite(g) && IsFinite(alpha)
    requires Negative(p) != ProductNegative(g, alpha)
    requires Aligned(a, b, yp, yq, t) && e - t >= -300
    requires Scale(Scale(Coefficient(Magnitude(p)), 149), 163) == Scale(yp, e - t + 400)
    requires Scale(ProductCoefficient(g, alpha), 163) == Scale(yq, e - t + 400)
    ensures m == if a >= b then a - b else b - a
    ensures m < Pow2(62) && Sticky(m, y, t) && (y == Scale(m, t) || m >= Pow2(60))
    ensures Scale(Abs(ExactSum(p, g, alpha)), 163) == Scale(y, e - t + 400)
    ensures m == 0 <==> ExactSum(p, g, alpha) == 0
    ensures m != 0 ==> (ExactSum(p, g, alpha) < 0) == (if a >= b then Negative(p) else !Negative(p))
  {
    hide Scale, Pow2, Coefficient, ProductCoefficient, ExactSum, Jam, Sticky;
    ExactSumIs(p, g, alpha);
    ScaledTerms(Scale(Coefficient(Magnitude(p)), 149), ProductCoefficient(g, alpha), yp, yq, e - t + 400);
    DifferenceSign(a - b, yp - yq, t);
    if a >= b {
      m, y := a - b, yp - yq;
    } else {
      m, y := b - a, yq - yp;
    }
  }

  lemma DifferenceSign(d: int, y: int, t: nat)
    requires Sticky(d, y, t)
    ensures Sticky(-d, -y, t)
    ensures y == Scale(d, t) ==> -y == Scale(-d, t)
    ensures d > 0 ==> y > 0
    ensures d == 0 ==> y == 0
    ensures d < 0 ==> y < 0
  {
    hide Scale, Sticky;
    StickyNegate(d, y, t);
    ScaleSum(d, -d, t);
    ScalePow2(0, t);
    StickyZero(y, t);
    if d > 0 {
      StickyPositive(d, y, t);
    } else if d < 0 {
      StickyPositive(-d, -y, t);
    }
  }

  lemma StickyZero(y: int, t: nat)
    ensures Sticky(0, y, t) ==> y == 0
  {
    ScalePow2(0, t);
  }

  /** The last step: a correctly rounded magnitude under the sign of the exact sum. */
  lemma SignedResult(num: int, negative: bool, magnitude: nat, word: u32)
    requires Nearest(Abs(num), Pow2(149), magnitude) && num != 0 && negative == (num < 0)
    requires word == SignBit(negative) + magnitude
    ensures RoundedSum(num, Pow2(149), false, word)
  {
    hide Pow2, Coefficient;
  }

  /** Rounding and packing a normalized magnitude. */
  lemma RoundAndPack(num: int, y: nat, t: nat, m: nat, s: nat, e: i32, negative: bool, magnitude: Vec2)
    requires num != 0 && negative == (num < 0)
    requires Sticky(m, y, t) && (y == Scale(m, t) || s <= 1)
    requires Wide(magnitude) == Scale(m, s) && Pow2(61) <= Scale(m, s) < Pow2(62)
    requires -300 <= e + s - t && -500 <= e <= 500 && Scale(Abs(num), 163) == Scale(y, e + s - t + 400)
    ensures RoundedSum(num, Pow2(149), false,
                       EncodeRounded(SignBit(negative), e, RoundMagnitude(magnitude, 38 + Max(0, -126 - e))))
  {
    var distance := 38 + Max(0, -126 - e);
    hide Sticky, Scale, Pow2, EncodeRounded, RoundMagnitude, Wide, Nearest, RoundedSum, Assemble, RoundHalfEven;
    var q := RoundMagnitude(magnitude, distance);
    RoundMagnitudeExact(magnitude, distance);
    Finish(Abs(num), y, t, m, s, e, distance, q);
    EncodeRoundedIs(negative, e, q);
    SignedResult(num, negative, Assemble(Max(0, e + 126), q), EncodeRounded(SignBit(negative), e, q));
  }

  lemma OrIsZero(v: Vec2)
    ensures Or(v.x, v.y) == 0 <==> Wide(v) == 0
  {
  }

  lemma ZeroResult(num: int)
    requires num == 0
    ensures RoundedSum(num, Pow2(149), false, 0)
  {
  }

  method FiniteFusedMultiplyAdd(p: u32, g: u32, alpha: u32) returns (word: u32)
    requires IsFinite(p) && IsFinite(g) && IsFinite(alpha) && !IsZero(g) && !IsZero(alpha)
    ensures RoundedSum(ExactSum(p, g, alpha), Pow2(149), false, word)
  {
    hide *;
    var parameter := NormalizeBinary32(p);
    var gradient := NormalizeBinary32(g);
    var coefficient := NormalizeBinary32(alpha);
    var product := SignificandProduct(gradient.significand, coefficient.significand);
    var extra := Select(product.y >= 0x8000);
    var productExponent := gradient.exponent + coefficient.exponent + extra;
    var exponent: i32 := Max(productExponent, parameter.exponent);
    if parameter.significand == 0 {
      exponent := productExponent;
    }
    var parameterMagnitude := JamMagnitude(LeftMagnitude(Vec2(parameter.significand, 0), 38),
                                           Max(0, exponent - parameter.exponent));
    var productMagnitude := JamMagnitude(LeftMagnitude(product, 15 - extra), Max(0, exponent - productExponent));
    var parameterSign := And(p, 0x8000_0000);
    var productSign := And(Xor(g, alpha), 0x8000_0000);
    SignsOf(p, g, alpha);
    ParameterMagnitude(p);
    ProductTerms(g, alpha, product);
    ghost var e := ProductMagnitude(g, alpha, product);
    ghost var left, right := LeftMagnitude(Vec2(parameter.significand, 0), 38), LeftMagnitude(product, 15 - extra);
    JamMagnitudeExact(left, Max(0, exponent - parameter.exponent));
    JamMagnitudeExact(right, Max(0, exponent - productExponent));
    ghost var yp, yq, t := Align(Wide(left), Wide(right), parameter.exponent, productExponent, exponent);
    ghost var a, b := Wide(parameterMagnitude), Wide(productMagnitude);
    var sign := parameterSign;
    var magnitude: Vec2;
    ghost var y, m, s, negative := 0, 0, 0, Negative(p);
    if parameterSign == productSign {
      magnitude := AddMagnitudes(parameterMagnitude, productMagnitude);
      m, t := SameSign(p, g, alpha, a, b, yp, yq, t, exponent);
      y := yp + yq;
      Pow2WideLiterals();
      AddMagnitudesExact(parameterMagnitude, productMagnitude);
      WideCarries(magnitude);
      JamMagnitudeExact(magnitude, 1);
      if magnitude.y >= 0x4000_0000 {
        magnitude := JamMagnitude(magnitude, 1);
        exponent := exponent + 1;
      }
    } else {
      WideIs(parameterMagnitude);
      WideIs(productMagnitude);
      m, y := OppositeSigns(p, g, alpha, a, b, yp, yq, t, exponent);
      if parameterMagnitude.y > productMagnitude.y
        || (parameterMagnitude.y == productMagnitude.y && parameterMagnitude.x >= productMagnitude.x) {
        magnitude := SubtractMagnitudes(parameterMagnitude, productMagnitude);
        SubtractMagnitudesExact(parameterMagnitude, productMagnitude);
      } else {
        magnitude := SubtractMagnitudes(productMagnitude, parameterMagnitude);
        SubtractMagnitudesExact(productMagnitude, parameterMagnitude);
        sign := productSign;
        negative := !negative;
      }
      OrIsZero(magnitude);
      if Or(magnitude.x, magnitude.y) == 0 {
        ZeroResult(ExactSum(p, g, alpha));
        return 0;
      }
      s := DifferenceOfTerms(m, y, t, magnitude);
      var top: u32;
      if magnitude.y != 0 {
        top := SubWord(63, CountLeadingZeros(magnitude.y));
      } else {
        top := SubWord(31, CountLeadingZeros(magnitude.x));
      }
      var shift: u32 := SubWord(61, top);
      magnitude := LeftMagnitude(magnitude, shift);
      exponent := exponent - shift;
    }
    RoundAndPack(ExactSum(p, g, alpha), y, t, m, s, exponent, negative, magnitude);
    var rounded := RoundMagnitude(magnitude, 38 + Max(0, -126 - exponent));
    word := EncodeRounded(sign, exponent, rounded);
  }

  /** A vanishing product leaves the parameter, and two zeros combine their signs. */
  lemma ZeroProduct(p: u32, g: u32, alpha: u32)
    requires IsFinite(p) && IsFinite(g) && IsFinite(alpha) && (IsZero(g) || IsZero(alpha))
    ensures var word := if IsZero(p) then SignBit(Negative(p) && ProductNegative(g, alpha)) else p;
            RoundedSum(ExactSum(p, g, alpha), Pow2(149), Negative(p) && ProductNegative(g, alpha), word)
  {
    hide Scale, Pow2, Coefficient, ProductCoefficient, ExactSum, Nearest;
    var c := Coefficient(Magnitude(p));
    ExactSumIs(p, g, alpha);
    VanishingProduct(g, alpha);
    ScaleIs(c, 149);
    NearestOfRepresentable(Magnitude(p), Pow2(149));
    CoefficientPositive(Magnitude(p));
    ScaleOrder(0, c, 149);
    ScaleOrder(c, 0, 149);
    ScalePow2(0, 149);
    SignMask(p);
  }

  lemma VanishingProduct(g: u32, alpha: u32)
    requires IsFinite(g) && IsFinite(alpha) && (IsZero(g) || IsZero(alpha))
    ensures ProductCoefficient(g, alpha) == 0
  {
  }

  lemma AndSigns(p: u32, negative: bool)
    requires IsZero(p)
    ensures And(p, SignBit(negative)) == SignBit(Negative(p) && negative)
  {
    SignMask(p);
  }

  lemma SpecialFields(p: u32, g: u32, alpha: u32)
    ensures And(p, 0x7fff_ffff) == Magnitude(p)
    ensures And(Xor(g, alpha), 0x8000_0000) == SignBit(ProductNegative(g, alpha))
    ensures And(Xor(p, SignBit(ProductNegative(g, alpha))), 0x8000_0000) != 0
       <==> Negative(p) != ProductNegative(g, alpha)
    ensures Or(SignBit(ProductNegative(g, alpha)), 0x7f80_0000) == SignBit(ProductNegative(g, alpha)) + INFINITE
  {
    SignMask(p);
    SignsOf(p, g, alpha);
    var sign := SignBit(ProductNegative(g, alpha));
    SignMask(Xor(p, sign));
    SignXor(p, sign);
    OrSign(ProductNegative(g, alpha), 0x7f80_0000);
  }

  /** The whole kernel: specials first, then one rounding of the exact sum. */
  method FusedMultiplyAddBinary32(p: u32, g: u32, alpha: u32) returns (word: u32)
    ensures FusedMultiplyAddResult(p, g, alpha, word)
  {
    hide And, Or, Xor, Pow2, Coefficient, RoundedSum, ExactSum, SignBit, ProductNegative;
    var pm := And(p, 0x7fff_ffff);
    var gm := And(g, 0x7fff_ffff);
    var am := And(alpha, 0x7fff_ffff);
    var sign := And(Xor(g, alpha), 0x8000_0000);
    SpecialFields(p, g, alpha);
    SpecialFields(g, g, alpha);
    SpecialFields(alpha, g, alpha);
    if pm > 0x7f80_0000 || gm > 0x7f80_0000 || am > 0x7f80_0000 {
      return 0x7fc0_0000;
    }
    if gm == 0x7f80_0000 || am == 0x7f80_0000 {
      if gm == 0 || am == 0 || (pm == 0x7f80_0000 && And(Xor(p, sign), 0x8000_0000) != 0) {
        return 0x7fc0_0000;
      }
      return Or(sign, 0x7f80_0000);
    }
    if pm == 0x7f80_0000 {
      return p;
    }
    if gm == 0 || am == 0 {
      ZeroProduct(p, g, alpha);
      if pm == 0 {
        AndSigns(p, ProductNegative(g, alpha));
        return And(p, sign);
      }
      return p;
    }
    word := FiniteFusedMultiplyAdd(p, g, alpha);
    NonzeroProduct(p, g, alpha, word);
  }

  /** A product of nonzero operands never cancels to a negative zero. */
  lemma NonzeroProduct(p: u32, g: u32, alpha: u32, word: u32)
    requires IsFinite(p) && IsFinite(g) && IsFinite(alpha) && !IsZero(g) && !IsZero(alpha)
    requires RoundedSum(ExactSum(p, g, alpha), Pow2(149), false, word)
    ensures RoundedSum(ExactSum(p, g, alpha), Pow2(149), Negative(p) && ProductNegative(g, alpha), word)
  {
    var c := Coefficient(Magnitude(p));
    ExactSumIs(p, g, alpha);
    CoefficientMonotone(0, Magnitude(g));
    CoefficientMonotone(0, Magnitude(alpha));
    MulStrict(0, Coefficient(Magnitude(g)), Coefficient(Magnitude(alpha)));
    ScaleOrder(0, c, 149);
    ScalePow2(0, 149);
    hide Scale, Pow2, Coefficient, ExactSum, Nearest;
  }
}
