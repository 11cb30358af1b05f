/**
 * Exact accumulation of binary32 words: a ten-word two's-complement coefficient
 * of 2^-149, and flags for the special inputs.
 */
module SumAccumulators {
  import opened Powers
  import opened Words
  import opened Binary32
  import opened WideMagnitudes
  import opened FusedMultiplyAdd

  datatype Accumulator = Accumulator(words: seq<u32>, flags: u32)

  const ZERO_WORDS: seq<u32> := [0, 0, 0, 0, 0, 0, 0, 0, 0, 0]

  /** The value of the words below k. */
  function Prefix(words: seq<u32>, k: nat): nat
    requires k <= |words|
  {
    if k == 0 then 0 else Prefix(words, k - 1) + Scale(words[k - 1], 32 * (k - 1))
  }

  /** The value of the words from k on, in units of word k. */
  function Tail(words: seq<u32>, k: nat): nat
    requires k <= |words|
    decreases |words| - k
  {
    if k == |words| then 0 else words[k] + 0x1_0000_0000 * Tail(words, k + 1)
  }

  function Unsigned(words: seq<u32>): nat
    requires |words| == 10
  {
    Prefix(words, 10)
  }

  function Signed(words: seq<u32>): int
    requires |words| == 10
  {
    if Unsigned(words) < Pow2(319) then Unsigned(words) else Unsigned(words) - Pow2(320)
  }

  lemma Pow2Word(k: nat)
    ensures Pow2(32 * (k + 1)) == 0x1_0000_0000 * Pow2(32 * k)
  {
    Pow2Literals();
    Pow2Add(32, 32 * k);
  }

  lemma {:induction false} PrefixBound(words: seq<u32>, k: nat)
    requires k <= |words|
    ensures Prefix(words, k) < Pow2(32 * k)
  {
    if k > 0 {
      PrefixBound(words, k - 1);
      Pow2Word(k - 1);
      hide Pow2, Scale;
      ScaleIs(0xffff_ffff, 32 * (k - 1));
      ScaleOrder(words[k - 1], 0xffff_ffff, 32 * (k - 1));
    }
  }

  lemma {:induction false} PrefixLocal(a: seq<u32>, b: seq<u32>, k: nat)
    requires k <= |a| && k <= |b| && a[..k] == b[..k]
    ensures Prefix(a, k) == Prefix(b, k)
  {
    if k > 0 {
      assert a[..k - 1] == a[..k][..k - 1] && b[..k - 1] == b[..k][..k - 1];
      assert a[k - 1] == a[..k][k - 1] && b[k - 1] == b[..k][k - 1];
      PrefixLocal(a, b, k - 1);
    }
  }

  /** The words split at any place into the digits below it and those from it on. */
  lemma {:induction false} PrefixTail(words: seq<u32>, k: nat)
    requires k <= |words|
    ensures Prefix(words, |words|) == Prefix(words, k) + Scale(Tail(words, k), 32 * k)
    ensures High(Prefix(words, |words|), 32 * k) == Tail(words, k)
    ensures Low(Prefix(words, |words|), 32 * k) == Prefix(words, k)
    decreases |words| - k
  {
    hide Scale, Pow2, High, Low;
    if k == |words| {
      ScalePow2(0, 32 * k);
    } else {
      PrefixTail(words, k + 1);
      var rest := Tail(words, k + 1);
      Pow2Literals();
      ScaleIs(rest, 32);
      ScaleScale(rest, 32, 32 * k);
      ScaleSum(words[k], Scale(rest, 32), 32 * k);
    }
    PrefixBound(words, k);
    ScaleIs(Tail(words, k), 32 * k);
    SplitUnique(Prefix(words, |words|), 32 * k, Tail(words, k), Prefix(words, k));
  }

  /** Two's-complement negation, word by word with a carry. */
  method Negate(value: Accumulator) returns (result: Accumulator)
    requires |value.words| == 10
    ensures |result.words| == 10 && result.flags == value.flags
    ensures Unsigned(result.words) == if Unsigned(value.words) == 0 then 0 else Pow2(320) - Unsigned(value.words)
    ensures Signed(value.words) != 0 - Pow2(319) ==> Signed(result.words) == 0 - Signed(value.words)
  {
    var words: seq<u32> := value.words;
    var carry: u32 := 1;
    var before := value.words;
    Pow2Literals();
    hide Scale, Pow2, NotWord, AddWord, Prefix;
    PrefixStart(before, words);
    var word := 0;
    while word < 10
      invariant 0 <= word <= 10 && |words| == 10 && carry <= 1
      invariant Prefix(words, word) + carry * Pow2(32 * word) == Pow2(32 * word) - Prefix(before, word)
    {
      var digit := AddWord(NotWord(before[word]), carry);
      NegateStep(words, before, word, carry, digit);
      words := words[word := digit];
      carry := Select(carry != 0 && words[word] == 0);
      word := word + 1;
    }
    result := value.(words := words);
    PrefixBound(words, 10);
    PrefixBound(before, 10);
    NegatedSigned(before, words);
  }

  lemma PrefixStart(a: seq<u32>, b: seq<u32>)
    requires |a| == |b| == 10
    ensures Prefix(a, 0) == 0 && Prefix(b, 0) == 0 && Pow2(32 * 0) == 1
  {
  }

  lemma PrefixStep(words: seq<u32>, k: nat, digit: u32)
    requires k < |words|
    ensures Prefix(words[k := digit], k + 1) == Prefix(words, k) + digit * Pow2(32 * k)
  {
    PrefixLocal(words, words[k := digit], k);
    ScaleIs(digit, 32 * k);
  }

  lemma NegateStep(words: seq<u32>, before: seq<u32>, k: nat, carry: u32, digit: u32)
    requires |words| == |before| == 10 && k < 10 && carry <= 1
    requires Prefix(words, k) + carry * Pow2(32 * k) == Pow2(32 * k) - Prefix(before, k)
    requires digit == AddWord(NotWord(before[k]), carry)
    ensures var carry' := Select(carry != 0 && digit == 0);
            (Prefix(words[k := digit], k + 1) + carry' * Pow2(32 * (k + 1))
             == Pow2(32 * (k + 1)) - Prefix(before, k + 1))
  {
    PrefixStep(words, k, digit);
    PrefixStep(before, k, before[k]);
    assert before[k := before[k]] == before;
    Pow2Word(k);
    var p := Pow2(32 * k);
    hide Prefix, Pow2;
    assert digit + 0x1_0000_0000 * Select(carry != 0 && digit == 0) == 0xffff_ffff - before[k] + carry;
    if carry == 1 && digit == 0 {
      assert before[k] == 0;
    } else {
      assert digit == 0xffff_ffff - before[k] + carry;
      MulDistributes(0xffff_ffff - before[k], carry, p);
      MulDistributes(0xffff_ffff, before[k], p);
    }
  }

  lemma NegatedSigned(before: seq<u32>, after: seq<u32>)
    requires |before| == |after| == 10
    requires Unsigned(after) == if Unsigned(before) == 0 then 0 else Pow2(320) - Unsigned(before)
    ensures Signed(before) != 0 - Pow2(319) ==> Signed(after) == 0 - Signed(before)
  {
    Pow2Double(319);
    hide Pow2, Prefix;
  }

  /** Exact addition with a carry, and the union of the flags. */
  method Merge(left: Accumulator, right: Accumulator) returns (result: Accumulator)
    requires |left.words| == 10 && |right.words| == 10
    ensures |result.words| == 10 && result.flags == Or(left.flags, right.flags)
    ensures 0 - Pow2(319) <= Signed(left.words) + Signed(right.words) < Pow2(319)
        ==> Signed(result.words) == Signed(left.words) + Signed(right.words)
  {
    var words: seq<u32> := ZERO_WORDS;
    var carry: u32 := 0;
    var a, b := left.words, right.words;
    hide Scale, Pow2, AddWord, Prefix;
    PrefixStart(a, words);
    PrefixStart(b, words);
    var word := 0;
    while word < 10
      invariant 0 <= word <= 10 && |words| == 10 && carry <= 1
      invariant Prefix(words, word) + carry * Pow2(32 * word) == Prefix(a, word) + Prefix(b, word)
    {
      var sum := AddWord(a[word], b[word]);
      var withCarry := AddWord(sum, carry);
      MergeStep(words, a, b, word, carry, sum, withCarry);
      words := words[word := withCarry];
      carry := Select(sum < a[word] || withCarry < sum);
      word := word + 1;
    }
    result := Accumulator(words, Or(left.flags, right.flags));
    CarryOut(carry, Pow2(320));
    MergedSigned(a, b, words, if carry == 0 then 0 else Pow2(320));
  }

  lemma MergeStep(words: seq<u32>, a: seq<u32>, b: seq<u32>, k: nat, carry: u32, sum: u32, withCarry: u32)
    requires |words| == |a| == |b| == 10 && k < 10 && carry <= 1
    requires Prefix(words, k) + carry * Pow2(32 * k) == Prefix(a, k) + Prefix(b, k)
    requires sum == AddWord(a[k], b[k]) && withCarry == AddWord(sum, carry)
    ensures var carry' := Select(sum < a[k] || withCarry < sum);
            (Prefix(words[k := withCarry], k + 1) + carry' * Pow2(32 * (k + 1))
             == Prefix(a, k + 1) + Prefix(b, k + 1))
  {
    PrefixStep(words, k, withCarry);
    PrefixStep(a, k, a[k]);
    PrefixStep(b, k, b[k]);
    assert a[k := a[k]] == a && b[k := b[k]] == b;
    Pow2Word(k);
    var p := Pow2(32 * k);
    var carry' := Select(sum < a[k] || withCarry < sum);
    WordCarry(a[k], b[k], carry, sum, withCarry, carry');
    hide Prefix, Pow2;
    CarryScaled(withCarry, carry', a[k], b[k], carry, p);
  }

  lemma WordCarry(a: int, b: int, carry: int, sum: int, withCarry: int, carry': int)
    requires 0 <= a < 0x1_0000_0000 && 0 <= b < 0x1_0000_0000 && 0 <= carry <= 1
    requires sum == Wrap(a + b) && withCarry == Wrap(sum + carry)
    requires carry' == Select(sum < a || withCarry < sum)
    ensures withCarry + 0x1_0000_0000 * carry' == a + b + carry
  {
  }

  lemma CarryScaled(digit: int, carry': int, a: int, b: int, carry: int, p: int)
    requires digit + 0x1_0000_0000 * carry' == a + b + carry
    ensures digit * p + carry' * (0x1_0000_0000 * p) == a * p + b * p + carry * p
  {
    MulDistributes(a + b, carry, p);
    MulDistributes(a, b, p);
    MulDistributes(digit, 0x1_0000_0000 * carry', p);
    MulAssoc(0x1_0000_0000, carry', p);
    MulAssoc(carry', 0x1_0000_0000, p);
  }

  lemma CarryOut(carry: u32, p: int)
    requires carry <= 1
    ensures carry * p == if carry == 0 then 0 else p
  {
  }

  lemma MergedSigned(a: seq<u32>, b: seq<u32>, words: seq<u32>, lost: int)
    requires |words| == |a| == |b| == 10 && (lost == 0 || lost == Pow2(320))
    requires Prefix(words, 10) + lost == Prefix(a, 10) + Prefix(b, 10)
    ensures 0 - Pow2(319) <= Signed(a) + Signed(b) < Pow2(319) ==> Signed(words) == Signed(a) + Signed(b)
  {
    hide Pow2, Prefix;
    Pow2Double(319);
    PrefixBound(words, 10);
    PrefixBound(a, 10);
    PrefixBound(b, 10);
    WrappedSum(Unsigned(a), Unsigned(b), Unsigned(words), Pow2(319), lost);
  }

  function Centered(x: int, half: int): int { if x < half then x else x - 2 * half }

  lemma WrappedSum(a: int, b: int, sum: int, half: int, lost: int)
    requires 0 <= a < 2 * half && 0 <= b < 2 * half && 0 <= sum < 2 * half
    requires sum + lost == a + b && (lost == 0 || lost == 2 * half)
    ensures 0 - half <= Centered(a, half) + Centered(b, half) < half
        ==> Centered(sum, half) == Centered(a, half) + Centered(b, half)
  {
  }

  lemma {:induction false} PrefixUpdate(words: seq<u32>, i: nat, digit: u32, k: nat)
    requires i < |words| && k <= |words|
    ensures Prefix(words[i := digit], k)
         == Prefix(words, k) + if i < k then Scale(digit, 32 * i) - Scale(words[i], 32 * i) else 0
  {
    if k > 0 {
      hide Scale;
      PrefixUpdate(words, i, digit, k - 1);
    }
  }

  lemma {:induction false} PrefixZero(k: nat)
    requires k <= 10
    ensures Prefix(ZERO_WORDS, k) == 0
  {
    if k > 0 {
      PrefixZero(k - 1);
      ScalePow2(0, 32 * (k - 1));
      hide Scale;
    }
  }

  lemma SignedOfUnsigned(words: seq<u32>)
    requires |words| == 10 && Unsigned(words) < Pow2(319)
    ensures Signed(words) == Unsigned(words)
  {
  }

  /** A significand written across two words at its bit offset. */
  lemma TwoWords(significand: u32, word: nat, offset: nat)
    requires significand < 0x100_0000 && word < 9 && offset < 32
    ensures var low := ZERO_WORDS[word := Shl(significand, offset)];
            var words := if offset != 0 then low[word + 1 := Shr(significand, 32 - offset)] else low;
            Unsigned(words) == Scale(significand, 32 * word + offset)
  {
    hide Scale, Pow2, Shl, Shr, Prefix;
    PrefixZero(10);
    var low := ZERO_WORDS[word := Shl(significand, offset)];
    PrefixUpdate(ZERO_WORDS, word, Shl(significand, offset), 10);
    ScalePow2(0, 32 * word);
    ScalePow2(0, 32 * (word + 1));
    ScaleScale(significand, offset, 32 * word);
    if offset == 0 {
      ScaleZero(significand);
      ShlExact(significand, 0);
    } else {
      var high := Shr(significand, 32 - offset);
      PrefixUpdate(low, word + 1, high, 10);
      ShlSplit(significand, offset);
      Pow2Literals();
      ScaleIs(high, 32);
      ScaleScale(high, 32, 32 * word);
      ScaleSum(Scale(high, 32), Shl(significand, offset), 32 * word);
    }
  }

  /** One flag for each kind of special input, in the kernel's bits. */
  function FlagBits(nan: bool, positive: bool, negative: bool): u32 {
    (if nan then 1 else 0) + (if positive then 2 else 0) + (if negative then 4 else 0)
  }

  /** A finite word as a significand at a bit position. */
  lemma SignificandAt(bits: u32)
    requires IsFinite(bits)
    ensures var exponent, fraction := Magnitude(bits) / 0x80_0000, Magnitude(bits) % 0x80_0000;
            var significand := Or(fraction, if exponent != 0 then 0x80_0000 else 0);
            var shift := if exponent != 0 then exponent - 1 else 0;
            && significand < 0x100_0000 && shift <= 253
            && Coefficient(Magnitude(bits)) == Scale(significand, shift)
            && Scale(significand, shift) < Pow2(277)
  {
    hide Or, Scale, Pow2;
    var exponent, fraction := Magnitude(bits) / 0x80_0000, Magnitude(bits) % 0x80_0000;
    var shift := if exponent != 0 then exponent - 1 else 0;
    OrHidden(fraction);
    OrSticky(fraction, 0);
    ScaleZero(fraction);
    Pow2Literals();
    var significand := Or(fraction, if exponent != 0 then 0x80_0000 else 0);
    ScaleOrder(significand, 0x100_0000, shift);
    ScalePow2(24, shift);
    Pow2Monotone(24 + shift, 277);
  }

  method Decode(bits: u32) returns (result: Accumulator)
    ensures |result.words| == 10
    ensures result.flags
         == FlagBits(IsNaN(bits), IsInfinite(bits) && !Negative(bits), IsInfinite(bits) && Negative(bits))
    ensures Signed(result.words) == if IsFinite(bits) then Exact(bits) else 0
    ensures 0 - Pow2(277) < Signed(result.words) < Pow2(277)
  {
    hide Scale, Pow2, Shl, Shr, Or, And, Prefix, Coefficient;
    result := Accumulator(ZERO_WORDS, 0);
    var exponent := And(Shr(bits, 23), 255);
    var fraction := And(bits, 0x7f_ffff);
    Fields(bits);
    SignMask(bits);
    PrefixZero(10);
    if exponent == 255 {
      if fraction != 0 {
        result := result.(flags := 1);
      } else {
        result := result.(flags := if Shr(bits, 31) != 0 then 4 else 2);
      }
      SignedOfUnsigned(ZERO_WORDS);
      return;
    }
    var significand := Or(fraction, if exponent != 0 then 0x80_0000 else 0);
    var shift := if exponent != 0 then exponent - 1 else 0;
    var word := shift / 32;
    var offset := shift % 32;
    SignificandAt(bits);
    TwoWords(significand, word, offset);
    Pow2Monotone(277, 319);
    var words: seq<u32> := result.words[word := Shl(significand, offset)];
    if offset != 0 {
      words := words[word + 1 := Shr(significand, 32 - offset)];
    }
    result := result.(words := words);
    SignedOfUnsigned(words);
    if Shr(bits, 31) != 0 {
      result := Negate(result);
    }
  }
}
