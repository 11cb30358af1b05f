/**
 * The u32 arithmetic of WGSL: addition, subtraction and multiplication wrap
 * modulo 2^32, a left shift drops the bits it moves out, and the bitwise
 * operators act digit by digit.
 */
module Words {
  import opened Powers

  const WORD_LIMIT: int := 0x1_0000_0000

  type u32 = x: int | 0 <= x < 0x1_0000_0000
  type i32 = x: int | -0x8000_0000 <= x < 0x8000_0000

  function Wrap(x: int): (r: u32)
    ensures 0 <= x < WORD_LIMIT ==> r == x
  {
    x % WORD_LIMIT
  }

  function AddWord(a: u32, b: u32): u32 { Wrap(a + b) }

  function SubWord(a: u32, b: u32): u32 { Wrap(a - b) }

  function MulWord(a: u32, b: u32): u32 { Wrap(a * b) }

  function Shl(a: u32, k: nat): u32
    requires k < 32
  {
    Wrap(a * Pow2(k))
  }

  function Shr(a: u32, k: nat): (r: u32)
    requires k < 32
    ensures r <= a
  {
    Split(a, k);
    High(a, k)
  }

  function NotWord(a: u32): u32 { 0xffff_ffff - a }

  function Select(condition: bool): (r: u32)
    ensures r == 0 || r == 1
  {
    if condition then 1 else 0
  }

  function BitAnd(a: nat, b: nat): (r: nat)
    ensures r <= a && r <= b
  {
    if a == 0 || b == 0 then 0
    else (if a % 2 == 1 && b % 2 == 1 then 1 else 0) + 2 * BitAnd(a / 2, b / 2)
  }

  function BitOr(a: nat, b: nat): (r: nat)
    ensures r >= a && r >= b && r <= a + b
  {
    if a == 0 then b else if b == 0 then a
    else (if a % 2 == 1 || b % 2 == 1 then 1 else 0) + 2 * BitOr(a / 2, b / 2)
  }

  function BitXor(a: nat, b: nat): (r: nat)
    ensures r <= a + b
  {
    if a == 0 then b else if b == 0 then a
    else (if a % 2 != b % 2 then 1 else 0) + 2 * BitXor(a / 2, b / 2)
  }

  function And(a: u32, b: u32): u32 { BitAnd(a, b) }

  function Or(a: u32, b: u32): u32 {
    Pow2Literals();
    BitOrBound(a, b, 32);
    BitOr(a, b)
  }

  function Xor(a: u32, b: u32): u32 {
    Pow2Literals();
    BitXorBound(a, b, 32);
    BitXor(a, b)
  }

  /** The number of binary digits; countLeadingZeros counts the rest of the word. */
  function BitLength(a: nat): (n: nat)
    ensures a == 0 <==> n == 0
    ensures a < Pow2(n)
    ensures n > 0 ==> Pow2(n - 1) <= a
  {
    if a == 0 then 0 else 1 + BitLength(a / 2)
  }

  function CountLeadingZeros(a: u32): (n: u32)
    ensures n <= 32
  {
    Pow2Literals();
    BitLengthBound(a, 32);
    32 - BitLength(a)
  }

  lemma BitLengthBound(a: nat, k: nat)
    ensures a < Pow2(k) <==> BitLength(a) <= k
  {
    if BitLength(a) <= k {
      Pow2Monotone(BitLength(a), k);
    } else {
      Pow2Monotone(k, BitLength(a) - 1);
    }
  }

  lemma {:induction false} BitOrBound(a: nat, b: nat, k: nat)
    requires a < Pow2(k) && b < Pow2(k)
    ensures BitOr(a, b) < Pow2(k)
  {
    if a != 0 && b != 0 {
      BitOrBound(a / 2, b / 2, k - 1);
    }
  }

  lemma {:induction false} BitXorBound(a: nat, b: nat, k: nat)
    requires a < Pow2(k) && b < Pow2(k)
    ensures BitXor(a, b) < Pow2(k)
  {
    if a != 0 && b != 0 {
      BitXorBound(a / 2, b / 2, k - 1);
    }
  }

  lemma AndStep(a: nat, b: nat)
    ensures BitAnd(a, b) == (if a % 2 == 1 && b % 2 == 1 then 1 else 0) + 2 * BitAnd(a / 2, b / 2)
  {
  }

  lemma XorStep(a: nat, b: nat)
    ensures BitXor(a, b) == (if a % 2 != b % 2 then 1 else 0) + 2 * BitXor(a / 2, b / 2)
    ensures BitXor(a, b) / 2 == BitXor(a / 2, b / 2)
  {
    if a == 0 && b != 0 {
      assert BitXor(0, b / 2) == b / 2;
    } else if a != 0 && b == 0 {
      assert BitXor(a / 2, 0) == a / 2;
    }
  }

  /** Masking with 2^k - 1 keeps the low digits. */
  lemma {:induction false} AndMask(a: nat, k: nat)
    ensures BitAnd(a, Pow2(k) - 1) == Low(a, k)
  {
    if k != 0 {
      hide BitAnd, Low;
      AndMask(a / 2, k - 1);
      AndStep(a, Pow2(k) - 1);
      SplitStep(a, k - 1);
    }
  }

  /** A mask with k trailing zeros only sees the digits from k on. */
  lemma {:induction false} AndHigh(a: nat, m: nat, k: nat)
    ensures BitAnd(a, Scale(m, k)) == Scale(BitAnd(High(a, k), m), k)
  {
    if k == 0 {
      ScaleZero(m);
      ScaleZero(BitAnd(a, m));
    } else {
      hide *;
      var high := Scale(m, k - 1);
      HalfScale(m, k - 1);
      HalfScale(BitAnd(High(a, k), m), k - 1);
      AndHigh(a / 2, m, k - 1);
      AndStep(a, 2 * high);
      SplitStep(a, k - 1);
    }
  }

  /** Digits that do not meet add up. */
  lemma {:induction false} OrDisjoint(high: nat, low: nat, k: nat)
    requires low < Pow2(k)
    ensures BitOr(high * Pow2(k), low) == high * Pow2(k) + low
  {
    if k != 0 && high != 0 && low != 0 {
      var p := Pow2(k - 1);
      assert high * Pow2(k) == 2 * (high * p);
      assert high * p > 0 by { MulStrict(0, high, p); }
      OrDisjoint(high, low / 2, k - 1);
    }
  }

  lemma OrCommutes(a: nat, b: nat)
    ensures BitOr(a, b) == BitOr(b, a)
  {
  }

  lemma OrBit(a: nat, b: nat)
    requires b <= 1
    ensures BitOr(a, b) == if b == 1 && a % 2 == 0 then a + 1 else a
  {
    if a != 0 && b == 1 {
      assert BitOr(a, 1) == 1 + 2 * BitOr(a / 2, 0);
    }
  }

  lemma {:induction false} XorHigh(a: nat, b: nat, k: nat)
    ensures High(BitXor(a, b), k) == BitXor(High(a, k), High(b, k))
  {
    if k != 0 {
      hide *;
      XorHigh(a / 2, b / 2, k - 1);
      SplitStep(a, k - 1);
      SplitStep(b, k - 1);
      SplitStep(BitXor(a, b), k - 1);
      XorStep(a, b);
    }
  }

  /** The sign bit of a word. */
  predicate Negative(w: u32) { w >= 0x8000_0000 }

  /** The other 31 bits. */
  function Magnitude(w: u32): (m: u32)
    ensures m < 0x8000_0000
  {
    w % 0x8000_0000
  }

  function SignBit(negative: bool): u32 { if negative then 0x8000_0000 else 0 }

  lemma SignMask(w: u32)
    ensures And(w, 0x8000_0000) == SignBit(Negative(w))
    ensures And(w, 0x7fff_ffff) == Magnitude(w)
    ensures w == SignBit(Negative(w)) + Magnitude(w)
    ensures Shr(w, 31) == if Negative(w) then 1 else 0
  {
    Pow2Literals();
    AndMask(w, 31);
    AndHigh(w, 1, 31);
    ScalePow2(0, 31);
    ScaleIs(BitAnd(High(w, 31), 1), 31);
    AndMask(High(w, 31), 1);
    assert High(w, 31) == if Negative(w) then 1 else 0;
  }

  lemma SignXor(a: u32, b: u32)
    ensures Negative(Xor(a, b)) == (Negative(a) != Negative(b))
  {
    Pow2Literals();
    XorHigh(a, b, 31);
    var s, t := High(a, 31), High(b, 31);
    assert BitXor(s, t) == if s != t then 1 else 0;
  }

  lemma OrSign(negative: bool, m: u32)
    requires m < 0x8000_0000
    ensures Or(SignBit(negative), m) == SignBit(negative) + m
  {
    Pow2Literals();
    OrDisjoint(if negative then 1 else 0, m, 31);
  }
}
