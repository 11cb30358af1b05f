/** The optimizer's step coefficient: an integer of the host language rounded directly to binary32. */
module OptimizerCoefficient {
  import opened Powers
  import opened Words
  import opened Binary32
  import opened Rounding
  import opened Midpoints

  datatype Coefficient32 = Bits(word: u32) | OutOfRange

  /** One rounding of the integer alpha, whose value is alpha * 2^149 in units of 2^-149. */
  predicate RoundedInteger(alpha: int, word: u32) { RoundsTo(Scale(alpha, 149), 1, word) }

  function BitLengthOf(magnitude: nat): (n: nat)
    requires 0x100_0000 <= magnitude < 0x1_0000_0000_0000_0000
    ensures 25 <= n <= 64
    ensures Pow2(n - 1) <= magnitude < Pow2(n)
  {
    Pow2Literals();
    Pow2WideLiterals();
    BitLengthBound(magnitude, 64);
    BitLengthBound(magnitude, 24);
    BitLength(magnitude)
  }

  /** The significand before and after rounding, for the magnitude of the given length. */
  lemma Significand(x: nat, n: nat, shift: nat)
    requires 25 <= n && Pow2(n - 1) <= x < Pow2(n) && shift == n - 24
    ensures 0x80_0000 <= RoundHalfEven(x, shift) <= 0x100_0000
    ensures Nearest(Scale(x, 149), 1, Assemble(shift + 149, RoundHalfEven(x, shift)))
  {
    hide *;
    var q := RoundHalfEven(x, shift);
    RoundHalfEvenNearest(x, shift);
    Pow2Literals();
    Pow2Add(24, shift);
    Pow2Add(23, shift);
    AssembleNearest(x, shift, shift + 149, q);
    ScaleScale(x, 149, shift);
    ScaleIs(Scale(x, 149), shift);
    NearestRatio(Scale(x, shift + 149), Pow2(shift), Scale(x, 149), 1, Assemble(shift + 149, q));
  }

  /** Packing sign, exponent and fraction, with the carry of the rounding. */
  lemma Pack(negative: bool, exponent: nat, significand: nat)
    requires exponent <= 128 && 0x80_0000 <= significand < 0x100_0000
    ensures var m := BitOr(Scale(exponent + 127, 23), BitAnd(significand, 0x7f_ffff));
            && m == (exponent + 126) * 0x80_0000 + significand
            && (m < 0x8000_0000 ==>
                  BitOr(BitOr(Scale(if negative then 1 else 0, 31), Scale(exponent + 127, 23)),
                        BitAnd(significand, 0x7f_ffff)) == SignBit(negative) + m)
  {
    hide BitOr, BitAnd, Pow2, Scale;
    Pow2Literals();
    AndMask(significand, 23);
    SplitUnique(significand, 23, 1, significand - 0x80_0000);
    ScaleIs(exponent + 127, 23);
    OrDisjoint(exponent + 127, significand - 0x80_0000, 23);
    if (exponent + 126) * 0x80_0000 + significand < 0x8000_0000 {
      PackSign(negative, exponent + 127, significand - 0x80_0000);
    }
  }

  lemma PackSign(negative: bool, field: nat, fraction: nat)
    requires field < 256 && fraction < 0x80_0000
    ensures BitOr(BitOr(Scale(if negative then 1 else 0, 31), Scale(field, 23)), fraction)
         == SignBit(negative) + field * 0x80_0000 + fraction
  {
    hide BitOr, Pow2, Scale;
    Pow2Literals();
    var s := if negative then 1 else 0;
    ScaleIs(s, 31);
    ScaleIs(field, 23);
    OrDisjoint(s, field * 0x80_0000, 31);
    OrDisjoint(s * 0x100 + field, fraction, 23);
  }

  /** The source's test against half the divisor decides as round half to even does. */
  lemma HalfwayTest(x: nat, shift: nat)
    requires shift > 0
    ensures var q, r, halfway := High(x, shift), Low(x, shift), Pow2(shift - 1);
            RoundHalfEven(x, shift) == if r > halfway || (r == halfway && q % 2 == 1) then q + 1 else q
  {
    Pow2Double(shift - 1);
    hide High, Low, Pow2;
  }

  /** The packed word, whether or not the rounding carried into the next binade. */
  lemma PackedMagnitude(negative: bool, exponent: nat, significand: nat, word: nat)
    requires exponent <= 128 && 0x80_0000 <= significand < 0x100_0000
    requires word == BitOr(BitOr(Scale(if negative then 1 else 0, 31), Scale(exponent + 127, 23)),
                           BitAnd(significand, 0x7f_ffff))
    ensures word == SignBit(negative) + (exponent + 126) * 0x80_0000 + significand
  {
    hide *;
    Pack(negative, exponent, significand);
  }

  /** Rounding an integer too wide for the significand. */
  method RoundWideInteger(alpha: int) returns (word: u32)
    requires 0x100_0000 <= Abs(alpha) < 0x1_0000_0000_0000_0000
    ensures RoundedInteger(alpha, word)
  {
    hide *;
    var magnitude := Abs(alpha);
    var exponent := BitLengthOf(magnitude) - 1;
    var shift := exponent - 23;
    var significand, remainder := High(magnitude, shift), Low(magnitude, shift);
    var halfway := Pow2(shift - 1);
    Significand(magnitude, exponent + 1, shift);
    HalfwayTest(magnitude, shift);
    if remainder > halfway || (remainder == halfway && significand % 2 == 1) {
      significand := significand + 1;
    }
    ghost var q := significand;
    if significand == 0x100_0000 {
      significand := 0x80_0000;
      exponent := exponent + 1;
    }
    var bits := BitOr(BitOr(Scale(if alpha < 0 then 1 else 0, 31), Scale(exponent + 127, 23)),
                      BitAnd(significand, 0x7f_ffff));
    PackedMagnitude(alpha < 0, exponent, significand, bits);
    AssembledWord(alpha < 0, shift + 149, q, bits);
    word := bits;
    WideResult(alpha, Assemble(shift + 149, q), word);
  }

  lemma AssembledWord(negative: bool, j: nat, q: nat, bits: nat)
    requires 150 <= j <= 189 && 0x80_0000 <= q <= 0x100_0000
    requires bits == SignBit(negative) + j * 0x80_0000 + q
    ensures bits < 0x1_0000_0000 && Magnitude(bits) == Assemble(j, q) && Negative(bits) == negative
  {
  }

  lemma WideResult(alpha: int, m: nat, word: u32)
    requires alpha != 0 && Nearest(Scale(Abs(alpha), 149), 1, m)
    requires Magnitude(word) == m && Negative(word) == (alpha < 0)
    ensures RoundedInteger(alpha, word)
  {
    hide Nearest, Pow2, Scale;
    ScaleSum(alpha, 0 - alpha, 149);
    ScalePow2(0, 149);
    ScaleOrder(alpha, 0, 149);
    ScaleOrder(0, alpha, 149);
  }

  /** The conversion of an integer that binary32 holds exactly. */
  function PackFloat(alpha: int): (word: u32) {
    NarrowNearest(Scale(Abs(alpha), 298));
    SignBit(alpha < 0) + NarrowMagnitude(Scale(Abs(alpha), 298))
  }

  lemma PackFloatRounds(alpha: int)
    ensures RoundedInteger(alpha, PackFloat(alpha))
  {
    var x := Scale(Abs(alpha), 298);
    hide *;
    NarrowNearest(x);
    ScaleScale(Abs(alpha), 149, 149);
    ScaleIs(Scale(Abs(alpha), 149), 149);
    NearestRatio(x, Pow2(149), Scale(Abs(alpha), 149), 1, NarrowMagnitude(x));
    PackedFields(alpha);
    if alpha == 0 {
      ZeroResult(NarrowMagnitude(x));
    } else {
      WideResult(alpha, NarrowMagnitude(x), PackFloat(alpha));
    }
  }

  lemma PackedFields(alpha: int)
    ensures Magnitude(PackFloat(alpha)) == NarrowMagnitude(Scale(Abs(alpha), 298))
    ensures Negative(PackFloat(alpha)) == (alpha < 0)
  {
    hide NarrowMagnitude, Scale, Pow2, Nearest;
    NarrowNearest(Scale(Abs(alpha), 298));
    SignedMagnitude(alpha < 0, NarrowMagnitude(Scale(Abs(alpha), 298)), PackFloat(alpha));
  }

  lemma SignedMagnitude(negative: bool, m: nat, word: u32)
    requires m <= INFINITE && word == SignBit(negative) + m
    ensures Magnitude(word) == m && Negative(word) == negative
  {
  }

  lemma ZeroResult(m: nat)
    requires Nearest(Scale(Abs(0), 149), 1, m) && m == Magnitude(PackFloat(0)) && !Negative(PackFloat(0))
    ensures RoundedInteger(0, PackFloat(0))
  {
    hide Nearest, PackFloat;
  }

  /** The coefficient of an integer learning rate: its negation rounded once, or refused. */
  method AlphaBits(lr: int) returns (result: Coefficient32)
    ensures result.OutOfRange? <==> !(-0x8000_0000_0000_0000 <= 0 - lr < 0x1_0000_0000_0000_0000)
    ensures result.Bits? ==> RoundedInteger(0 - lr, result.word)
  {
    hide *;
    var alpha := 0 - lr;
    if !(-0x8000_0000_0000_0000 <= alpha < 0x1_0000_0000_0000_0000) {
      return OutOfRange;
    }
    if Abs(alpha) >= 0x100_0000 {
      var word := RoundWideInteger(alpha);
      return Bits(word);
    }
    PackFloatRounds(alpha);
    return Bits(PackFloat(alpha));
  }
}
