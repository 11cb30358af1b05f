/** The one rounding at the end of an exact sum. */
module SumRounding {
  import opened Powers
  import opened Words
  import opened Binary32
  import opened Rounding
  import opened WideMagnitudes
  import opened FusedMultiplyAdd
  import opened SumAccumulators

  lemma BitLengthUnique(x: nat, n: nat)
    requires n > 0 && Pow2(n - 1) <= x < Pow2(n)
    ensures BitLength(x) == n
  {
    hide Pow2, BitLength;
    BitLengthBound(x, n);
    BitLengthBound(x, n - 1);
  }

  lemma HighestStep(words: seq<u32>, k: nat)
    requires k < |words|
    ensures BitLength(Prefix(words, k + 1))
         == if words[k] != 0 then 32 * k + BitLength(words[k]) else BitLength(Prefix(words, k))
  {
    hide Pow2, BitLength, Scale;
    PrefixBound(words, k);
    ScalePow2(0, 32 * k);
    if words[k] != 0 {
      var n := BitLength(words[k]);
      var digit: int := words[k];
      ScaleOrder(Pow2(n - 1), words[k], 32 * k);
      ScaleOrder(digit + 1, Pow2(n), 32 * k);
      ScaleSum(words[k], 1, 32 * k);
      ScalePow2(n - 1, 32 * k);
      ScalePow2(n, 32 * k);
      BitLengthUnique(Prefix(words, k + 1), 32 * k + n);
    }
  }

  /** The sign bit of the top word is the sign of the accumulator. */
  lemma TopBit(words: seq<u32>)
    requires |words| == 10
    ensures words[9] >= 0x8000_0000 <==> Unsigned(words) >= Pow2(319)
    ensures Unsigned(words) < Pow2(320)
  {
    PrefixTail(words, 9);
    assert Tail(words, 9) == words[9];
    PrefixBound(words, 10);
    Pow2Literals();
    Pow2Add(31, 288);
    HighBound(Unsigned(words), 288, 0x8000_0000);
    hide High, Low, Pow2, Tail, Prefix;
  }

  lemma TailStep(words: seq<u32>, k: nat)
    requires k < |words|
    ensures Tail(words, k) == words[k] + 0x1_0000_0000 * Tail(words, k + 1)
  {
  }

  /** The digits from shift on, when 24 of them remain, from at most two words. */
  lemma TopDigits(words: seq<u32>, word: nat, offset: nat)
    requires |words| == 10 && word < 10 && offset < 32
    requires Unsigned(words) < Pow2(32 * word + offset + 24)
    ensures var top := Shr(words[word], offset);
            (High(Unsigned(words), 32 * word + offset)
             == if offset != 0 && word + 1 < 10 then Or(top, Shl(words[word + 1], 32 - offset)) else top)
  {
    hide High, Low, Pow2, Tail, Prefix, Shr, Shl, Or, Wide, Scale;
    PrefixTail(words, word);
    HighHigh(Unsigned(words), 32 * word, offset);
    TailBelow(words, word, offset);
    TailStep(words, word);
    ShrIs(words[word], offset);
    if offset == 0 {
      SplitNone(Tail(words, word));
      SplitNone(words[word]);
    } else if word + 1 == 10 {
      TailEnd(words);
    } else {
      TwoWordTail(words, word, offset);
      var v := Vec2(words[word], words[word + 1]);
      JamShortSplit(v, offset);
      ShlSplit(v.y, 32 - offset);
      OrLowDigits(Shr(v.x, offset), Low(v.y, offset), 32 - offset);
    }
  }

  lemma TailEnd(words: seq<u32>)
    requires |words| == 10
    ensures Tail(words, 10) == 0
  {
  }

  lemma TailBelow(words: seq<u32>, word: nat, offset: nat)
    requires |words| == 10 && word < 10 && offset < 32
    requires Unsigned(words) < Pow2(32 * word + offset + 24)
    ensures Tail(words, word) < Pow2(offset + 24)
    ensures High(Tail(words, word), offset) < 0x100_0000
    ensures offset == 0 ==> Tail(words, word + 1) == 0
  {
    hide High, Low, Pow2, Tail, Prefix;
    PrefixTail(words, word);
    Pow2Add(offset + 24, 32 * word);
    HighBound(Unsigned(words), 32 * word, Pow2(offset + 24));
    Pow2Literals();
    Pow2Add(24, offset);
    HighBound(Tail(words, word), offset, 0x100_0000);
    TailStep(words, word);
  }

  lemma TwoWordTail(words: seq<u32>, word: nat, offset: nat)
    requires |words| == 10 && word + 1 < 10 && offset < 32 && Tail(words, word) < Pow2(offset + 24)
    ensures Tail(words, word) == Wide(Vec2(words[word], words[word + 1]))
  {
    hide Pow2, Tail;
    Pow2Monotone(offset + 24, 64);
    Pow2WideLiterals();
    TailStep(words, word);
    TailStep(words, word + 1);
  }

  /** One digit of the value and those below it, from the words. */
  lemma GuardDigits(words: seq<u32>, word: nat, offset: nat)
    requires |words| == 10 && word < 10 && offset < 32
    ensures And(Shr(words[word], offset), 1) == High(Unsigned(words), 32 * word + offset) % 2
    ensures Low(Unsigned(words), 32 * word + offset) == 0
       <==> Prefix(words, word) == 0 && Low(words[word], offset) == 0
  {
    hide High, Low, Pow2, Tail, Prefix, Shr, Scale, And;
    PrefixTail(words, word);
    HighHigh(Unsigned(words), 32 * word, offset);
    TailStep(words, word);
    var rest := Tail(words, word + 1);
    LowestWord(words[word], rest, offset);
    ShrIs(words[word], offset);
    AndOne(Shr(words[word], offset));
    DigitsVanish(Low(words[word], offset), Prefix(words, word), 32 * word);
  }

  lemma DigitsVanish(digits: nat, below: nat, k: nat)
    ensures digits * Pow2(k) + below == 0 <==> digits == 0 && below == 0
  {
    if digits > 0 {
      MulStrict(0, digits, Pow2(k));
    }
  }

  lemma LowestWord(x: u32, rest: nat, offset: nat)
    requires offset < 32
    ensures Low(x + 0x1_0000_0000 * rest, offset) == Low(x, offset)
    ensures High(x + 0x1_0000_0000 * rest, offset) % 2 == High(x, offset) % 2
  {
    hide *;
    var above := Scale(rest, 32 - offset);
    SplitScaled(x, offset, 0, 0);
    ScaleScale(rest, 32 - offset, offset);
    Pow2Literals();
    ScaleIs(rest, 32);
    ScaleSum(above, High(x, offset), offset);
    SplitScaled(x + 0x1_0000_0000 * rest, offset, above + High(x, offset), Low(x, offset));
    HalfScale(rest, 31 - offset);
  }

  /** The rounding decided by the guard digit and whatever lies below it. */
  lemma GuardSticky(x: nat, shift: nat)
    requires shift > 0
    ensures var guard, sticky := High(x, shift - 1) % 2 == 1, Low(x, shift - 1) != 0;
            (RoundHalfEven(x, shift)
             == High(x, shift) + if guard && (sticky || High(x, shift) % 2 == 1) then 1 else 0)
  {
    hide Low, High, Pow2;
    var h := High(x, shift - 1);
    HighHigh(x, shift - 1, 1);
    LowOne(h);
    Split(x, shift - 1);
    Pow2Double(shift - 1);
    if h % 2 == 0 {
      assert (h % 2) * Pow2(shift - 1) == 0;
    } else {
      assert (h % 2) * Pow2(shift - 1) == Pow2(shift - 1);
    }
  }

  lemma LowOne(x: nat)
    ensures Low(x, 1) == x % 2
  {
    Pow2Literals();
  }

  lemma FlagMasks(nan: bool, positive: bool, negative: bool)
    ensures var flags := FlagBits(nan, positive, negative);
            && (And(flags, 1) != 0 <==> nan)
            && (And(flags, 6) == 6 <==> positive && negative)
            && (And(flags, 2) != 0 <==> positive)
            && (And(flags, 4) != 0 <==> negative)
  {
    var flags := FlagBits(nan, positive, negative);
    var half := (if positive then 1 else 0) + (if negative then 2 else 0);
    hide BitAnd;
    AndStep(flags, 1);
    AndStep(flags, 6);
    AndStep(flags, 2);
    AndStep(flags, 4);
    AndStep(half, 3);
    AndStep(half, 1);
    AndStep(half, 2);
    AndStep(half, 0);
    var quarter := if negative then 1 else 0;
    AndStep(quarter, 1);
    AndStep(quarter, 0);
    AndStep(0, 0);
    AndZero(half);
    AndZero(quarter);
  }

  lemma AndZero(x: nat)
    ensures BitAnd(x, 0) == 0 && BitAnd(0, x) == 0
  {
  }

  /** The specified result of a sum with this total and these special inputs. */
  predicate SumResult(total: int, nan: bool, positive: bool, negative: bool, word: u32) {
    if nan || (positive && negative) then word == QUIET_NAN
    else if positive then word == INFINITE
    else if negative then word == SignBit(true) + INFINITE
    else RoundedSum(total, 1, false, word)
  }

  /** A total of at most 23 digits is its own magnitude word. */
  lemma SmallTotal(total: int, negative: bool, words: seq<u32>)
    requires |words| == 10 && Unsigned(words) == Abs(total) && total != 0 && negative == (total < 0)
    requires Unsigned(words) < Pow2(23)
    ensures RoundedSum(total, 1, false, Or(SignBit(negative), words[0]))
  {
    hide High, Low, Tail, Scale, Pow2, Prefix, Or, Nearest;
    PrefixTail(words, 1);
    Pow2Literals();
    SplitUnique(Unsigned(words), 32, 0, Unsigned(words));
    FirstWord(words);
    OrSign(negative, words[0]);
    SmallNearest(words[0]);
    SmallResult(total, negative, words[0], Or(SignBit(negative), words[0]));
  }

  lemma SmallNearest(m: nat)
    requires m < 0x80_0000
    ensures Nearest(m, 1, m)
  {
    NearestOfRepresentable(m, 1);
  }

  lemma SmallResult(total: int, negative: bool, m: nat, word: u32)
    requires negative == (total < 0) && total != 0 && Abs(total) == m < 0x80_0000 && Nearest(m, 1, m)
    requires word == SignBit(negative) + m
    ensures RoundedSum(total, 1, false, word)
  {
    hide Coefficient;
  }

  lemma FirstWord(words: seq<u32>)
    requires |words| == 10
    ensures Prefix(words, 1) == words[0]
  {
    ScaleZero(words[0]);
    assert Prefix(words, 1) == Prefix(words, 0) + Scale(words[0], 32 * 0);
  }

  /** A longer total is rounded to 24 digits at its own scale. */
  lemma LongTotal(total: int, negative: bool, shift: nat, q: nat, word: u32)
    requires negative == (total < 0) && shift <= 400
    requires 0x80_0000 * Pow2(shift) <= Abs(total) < 0x100_0000 * Pow2(shift)
    requires q == RoundHalfEven(Abs(total), shift)
    requires word == SignBit(negative) + Assemble(shift, q)
    ensures RoundedSum(total, 1, false, word)
  {
    hide Pow2, Scale, RoundHalfEven, Assemble, Nearest;
    var x: nat := Abs(total);
    RoundHalfEvenNearest(x, shift);
    AssembleNearest(x, shift, shift, q);
    ScaleIs(x, shift);
    NearestRatio(Scale(x, shift), Pow2(shift), x, 1, Assemble(shift, q));
    LongResult(total, negative, shift, q, word);
  }

  lemma LongResult(total: int, negative: bool, shift: nat, q: nat, word: u32)
    requires negative == (total < 0) && total != 0 && Nearest(Abs(total), 1, Assemble(shift, q))
    requires word == SignBit(negative) + Assemble(shift, q)
    ensures RoundedSum(total, 1, false, word)
  {
    hide Coefficient;
  }

  lemma RoundedDigits(x: nat, shift: nat)
    requires 0x80_0000 * Pow2(shift) <= x < 0x100_0000 * Pow2(shift)
    ensures 0x80_0000 <= RoundHalfEven(x, shift) <= 0x100_0000
    ensures 0x80_0000 <= High(x, shift) < 0x100_0000
  {
    hide Pow2, High, RoundHalfEven;
    RoundHalfEvenNearest(x, shift);
    NearestEvenBetween(x, Pow2(shift), RoundHalfEven(x, shift), 0x80_0000, 0x100_0000);
    HighBound(x, shift, 0x100_0000);
    HighBound(x, shift, 0x80_0000);
  }

  /** The packed word of a significand of 24 digits, which a carry may have widened. */
  lemma PackTotal(negative: bool, high: nat, top: u32)
    requires 23 <= high < 400 && 0x80_0000 <= top <= 0x100_0000
    ensures var carried := top == 0x100_0000;
            var exponent := (if carried then high + 1 else high) - 22;
            var top' := if carried then Shr(top, 1) else top;
            && (exponent >= 255 ==>
                  Or(SignBit(negative), 0x7f80_0000) == SignBit(negative) + Assemble(high - 23, top))
            && (exponent < 255 ==>
                  Or(Or(SignBit(negative), Shl(exponent, 23)), And(top', 0x7f_ffff))
                  == SignBit(negative) + Assemble(high - 23, top))
  {
    hide Shr, Or, Shl, And, Pow2;
    HalveCarried();
    var carried := top == 0x100_0000;
    var exponent := (if carried then high + 1 else high) - 22;
    OrSign(negative, 0x7f80_0000);
    if exponent < 255 {
      PackFields(negative, exponent, if carried then 0x80_0000 else top);
    }
  }

  /** The digit counted by countLeadingZeros in one word of the scan. */
  lemma LeadingDigit(word: u32)
    requires word != 0
    ensures 31 - CountLeadingZeros(word) == BitLength(word) - 1
  {
    hide BitLength;
  }

  /** Where the highest set digit lies, over all words; -1 for zero. */
  method HighestDigit(words: seq<u32>) returns (highest: i32)
    requires |words| == 10
    ensures highest == BitLength(Unsigned(words)) - 1 <= 319
  {
    hide BitLength, Prefix, CountLeadingZeros;
    highest := -1;
    PrefixStart(words, words);
    BitLengthZero();
    var word := 0;
    while word < 10
      invariant 0 <= word <= 10
      invariant highest == BitLength(Prefix(words, word)) - 1 <= 32 * word - 1
    {
      HighestStep(words, word);
      if words[word] != 0 {
        LeadingDigit(words[word]);
        WordDigits(words[word]);
        highest := 32 * word + 31 - CountLeadingZeros(words[word]);
      }
      word := word + 1;
    }
  }

  lemma BitLengthZero()
    ensures BitLength(0) == 0
  {
  }

  lemma WordDigits(word: u32)
    ensures BitLength(word) <= 32
  {
    Pow2Literals();
    BitLengthBound(word, 32);
  }

  /** Whether anything lies below the guard digit. */
  method StickyDigits(words: seq<u32>, guardWord: nat, guardOffset: nat) returns (sticky: u32)
    requires |words| == 10 && guardWord < 10 && guardOffset < 32
    ensures sticky != 0 <==> Low(Unsigned(words), 32 * guardWord + guardOffset) != 0
  {
    hide High, Low, Pow2, Prefix, Or, And, Shl, Scale;
    sticky := 0;
    PrefixStart(words, words);
    var below := 0;
    while below < guardWord
      invariant 0 <= below <= guardWord
      invariant sticky != 0 <==> Prefix(words, below) != 0
    {
      StickyStep(words, below, sticky);
      sticky := Or(sticky, words[below]);
      below := below + 1;
    }
    GuardDigits(words, guardWord, guardOffset);
    if guardOffset != 0 {
      MaskLow(words[guardWord], guardOffset);
      OrNonzero(sticky, And(words[guardWord], SubWord(Shl(1, guardOffset), 1)));
      sticky := Or(sticky, And(words[guardWord], SubWord(Shl(1, guardOffset), 1)));
    } else {
      SplitNone(words[guardWord]);
    }
  }

  lemma OrNonzero(a: u32, b: u32)
    ensures Or(a, b) != 0 <==> a != 0 || b != 0
  {
  }

  lemma StickyStep(words: seq<u32>, k: nat, sticky: u32)
    requires k < |words| && (sticky != 0 <==> Prefix(words, k) != 0)
    ensures Or(sticky, words[k]) != 0 <==> Prefix(words, k + 1) != 0
  {
    OrNonzero(sticky, words[k]);
    ScaleOrder(0, words[k], 32 * k);
    ScalePow2(0, 32 * k);
    hide Scale, Or;
  }

  method RoundedMagnitude(words: seq<u32>, negative: bool, total: int) returns (word: u32)
    requires |words| == 10 && Unsigned(words) == Abs(total) && negative == (total < 0)
    ensures RoundedSum(total, 1, false, word)
  {
    hide High, Low, Pow2, Prefix, Or, And, Shl, Shr, Scale, RoundHalfEven, Assemble, RoundsTo, BitLength;
    var sign := SignBit(negative);
    var highest := HighestDigit(words);
    if highest < 0 {
      BitLengthZero();
      return 0;
    }
    if highest < 23 {
      BitLengthBound(Unsigned(words), 23);
      SmallTotal(total, negative, words);
      return Or(sign, words[0]);
    }
    var high: u32 := highest;
    var shift := high - 23;
    var wordIndex := shift / 32;
    var offset := shift % 32;
    DigitRange(Unsigned(words), shift);
    RoundedDigits(Unsigned(words), shift);
    TopDigits(words, wordIndex, offset);
    var top := Shr(words[wordIndex], offset);
    if offset != 0 && wordIndex + 1 < 10 {
      top := Or(top, Shl(words[wordIndex + 1], 32 - offset));
    }
    if shift != 0 {
      var guardIndex := shift - 1;
      var guardWord := guardIndex / 32;
      var guardOffset := guardIndex % 32;
      var guard := And(Shr(words[guardWord], guardOffset), 1);
      var sticky := StickyDigits(words, guardWord, guardOffset);
      GuardDigits(words, guardWord, guardOffset);
      GuardSticky(Unsigned(words), shift);
      AndOne(top);
      if guard != 0 && (sticky != 0 || And(top, 1) != 0) {
        top := AddWord(top, 1);
      }
    } else {
      RoundNothing(Unsigned(words));
    }
    PackTotal(negative, high, top);
    ghost var q := top;
    if top == 0x100_0000 {
      top := Shr(top, 1);
      high := AddWord(high, 1);
    }
    var exponent: u32 := high - 22;
    if exponent >= 255 {
      word := Or(sign, 0x7f80_0000);
    } else {
      word := Or(Or(sign, Shl(exponent, 23)), And(top, 0x7f_ffff));
    }
    LongTotal(total, negative, shift, q, word);
  }

  lemma RoundNothing(x: nat)
    ensures RoundHalfEven(x, 0) == High(x, 0)
  {
  }

  lemma DigitRange(x: nat, shift: nat)
    requires BitLength(x) == shift + 24
    ensures 0x80_0000 * Pow2(shift) <= x < 0x100_0000 * Pow2(shift)
    ensures x < Pow2(shift + 24)
  {
    hide Pow2, BitLength;
    Pow2Literals();
    Pow2Add(23, shift);
    Pow2Add(24, shift);
    BitLengthBound(x, shift + 24);
    BitLengthBound(x, shift + 23);
  }

  /** The accumulator's flags or its total, rounded once. */
  method Rounded(value: Accumulator, ghost nan: bool, ghost positive: bool, ghost negative: bool)
    returns (word: u32)
    requires |value.words| == 10 && value.flags == FlagBits(nan, positive, negative)
    ensures SumResult(Signed(value.words), nan, positive, negative, word)
  {
    hide Pow2, Prefix, And, Scale, FlagBits, RoundedSum;
    FlagMasks(nan, positive, negative);
    if And(value.flags, 1) != 0 || And(value.flags, 6) == 6 {
      return 0x7fc0_0000;
    }
    if And(value.flags, 2) != 0 {
      return 0x7f80_0000;
    }
    if And(value.flags, 4) != 0 {
      return 0xff80_0000;
    }
    var sign := And(value.words[9], 0x8000_0000);
    SignMask(value.words[9]);
    TopBit(value.words);
    var magnitude := value;
    if sign != 0 {
      magnitude := Negate(magnitude);
    }
    Pow2Double(319);
    word := RoundedMagnitude(magnitude.words, sign != 0, Signed(value.words));
  }
}
