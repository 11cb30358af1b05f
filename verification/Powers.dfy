/** Powers of two and the few facts about division by them that the word arithmetic needs. */
module Powers {

  function Pow2(k: nat): (p: int)
    ensures p > 0
  {
    if k == 0 then 1 else 2 * Pow2(k - 1)
  }

  function Scale(x: int, k: nat): (r: int)
    ensures x >= 0 ==> r >= 0
  {
    MulMonotone(0, if x >= 0 then x else 0, Pow2(k));
    x * Pow2(k)
  }

  lemma ScaleIs(x: int, k: nat)
    ensures Scale(x, k) == x * Pow2(k)
  {
  }

  lemma ScaleZero(x: int)
    ensures Scale(x, 0) == x
  {
  }

  lemma ScaleScale(x: int, a: nat, b: nat)
    ensures Scale(Scale(x, a), b) == Scale(x, a + b)
  {
    Pow2Add(a, b);
    MulAssoc(x, Pow2(a), Pow2(b));
  }

  lemma ScaleSum(a: int, b: int, k: nat)
    ensures Scale(a, k) + Scale(b, k) == Scale(a + b, k)
  {
    MulDistributes(a, b, Pow2(k));
  }

  lemma HalfScale(x: int, t: nat)
    ensures Scale(x, t + 1) == Scale(2 * x, t)
    ensures Scale(2 * x, t) == 2 * Scale(x, t)
  {
    MulAssoc(x, 2, Pow2(t));
    MulAssoc(2, x, Pow2(t));
  }

  lemma ScaleOrder(a: int, b: int, k: nat)
    ensures a <= b <==> Scale(a, k) <= Scale(b, k)
    ensures a < b <==> Scale(a, k) < Scale(b, k)
  {
    MulCancel(a, b, Pow2(k));
  }

  lemma ScalePow2(a: nat, k: nat)
    ensures Scale(Pow2(a), k) == Pow2(a + k)
    ensures Scale(1, k) == Pow2(k) && Scale(0, k) == 0
  {
    Pow2Add(a, k);
  }

  lemma {:induction false} Pow2Add(a: nat, b: nat)
    ensures Pow2(a + b) == Pow2(a) * Pow2(b)
  {
    if a == 0 {
    } else {
      Pow2Add(a - 1, b);
      assert Pow2(a + b) == 2 * Pow2(a - 1 + b);
    }
  }

  lemma Pow2Double(k: nat)
    ensures Pow2(k + 1) == 2 * Pow2(k)
  {
  }

  lemma {:induction false} Pow2Monotone(a: nat, b: nat)
    requires a <= b
    ensures Pow2(a) <= Pow2(b)
  {
    if a < b {
      Pow2Monotone(a, b - 1);
    }
  }

  lemma Pow2Strict(a: nat, b: nat)
    requires a < b
    ensures 2 * Pow2(a) <= Pow2(b)
  {
    Pow2Monotone(a + 1, b);
  }

  lemma MulMonotone(a: int, b: int, c: nat)
    requires a <= b
    ensures a * c <= b * c
  {
  }

  lemma MulAssoc(a: int, b: int, c: int)
    ensures a * (b * c) == (a * b) * c
    ensures (a * b) * c == b * (a * c)
  {
  }

  lemma MulDistributes(a: int, b: int, c: int)
    ensures (a + b) * c == a * c + b * c
    ensures (a - b) * c == a * c - b * c
  {
  }

  lemma MulStep(a: int, c: int)
    ensures (a + 1) * c == a * c + c
  {
  }

  lemma MulStrict(a: int, b: int, c: nat)
    requires a < b && c > 0
    ensures a * c < b * c
  {
  }

  lemma MulCancel(a: int, b: int, c: nat)
    requires c > 0
    ensures a * c <= b * c <==> a <= b
    ensures a * c < b * c <==> a < b
    ensures a * c == b * c <==> a == b
  {
    if a < b {
      MulStrict(a, b, c);
    } else if b < a {
      MulStrict(b, a, c);
    }
  }

  /** The quotient and the remainder are the only pair of their kind. */
  lemma DivModUnique(x: int, d: int, q: int, r: int)
    requires d > 0 && 0 <= r < d
    requires x == q * d + r
    ensures x / d == q && x % d == r
  {
    var q', r' := x / d, x % d;
    assert x == q' * d + r';
    if q' < q {
      assert (q - q') * d >= d by { MulMonotone(1, q - q', d); }
      assert false;
    }
    if q' > q {
      assert (q' - q) * d >= d by { MulMonotone(1, q' - q, d); }
      assert false;
    }
  }

  lemma DivModFacts(x: int, d: int)
    requires d > 0
    ensures x == (x / d) * d + x % d
    ensures 0 <= x % d < d
    ensures x >= 0 ==> x / d >= 0
  {
  }

  /** A quotient stays below a bound exactly when its numerator stays below the scaled bound. */
  lemma DivBound(x: int, d: int, bound: int)
    requires d > 0
    ensures x / d < bound <==> x < bound * d
  {
    DivModFacts(x, d);
    var q := x / d;
    if q < bound {
      MulMonotone(q + 1, bound, d);
      assert (q + 1) * d == q * d + d;
    } else {
      MulMonotone(bound, q, d);
    }
  }

  lemma DivDiv(x: int, a: int, b: int)
    requires a > 0 && b > 0
    ensures a * b > 0
    ensures (x / a) / b == x / (a * b)
    ensures x % (a * b) == (x / a) % b * a + x % a
  {
    MulStrict(0, a, b);
    var q, r := x / a, x % a;
    var s, t := q / b, q % b;
    DivModFacts(x, a);
    DivModFacts(q, b);
    assert x == (s * b + t) * a + r;
    assert (s * b + t) * a == s * (a * b) + t * a;
    assert 0 <= t * a by { MulMonotone(0, t, a); }
    assert t * a + a <= a * b by {
      MulMonotone(t + 1, b, a);
      assert (t + 1) * a == t * a + a;
    }
    DivModUnique(x, a * b, s, t * a + r);
  }

  /** The digits of x from position k on, and those below it. */
  function High(x: nat, k: nat): nat {
    DivModFacts(x, Pow2(k));
    x / Pow2(k)
  }

  function Low(x: nat, k: nat): nat { x % Pow2(k) }

  lemma Split(x: nat, k: nat)
    ensures x == High(x, k) * Pow2(k) + Low(x, k)
    ensures Low(x, k) < Pow2(k)
    ensures High(x, k) <= x
  {
    DivModFacts(x, Pow2(k));
    MulMonotone(1, Pow2(k), High(x, k));
  }

  lemma SplitUnique(x: nat, k: nat, high: nat, low: nat)
    requires x == high * Pow2(k) + low && low < Pow2(k)
    ensures High(x, k) == high && Low(x, k) == low
  {
    DivModUnique(x, Pow2(k), high, low);
  }

  lemma SplitScaled(x: nat, k: nat, high: nat, low: nat)
    ensures x == Scale(High(x, k), k) + Low(x, k) && Low(x, k) < Pow2(k)
    ensures x == Scale(high, k) + low && low < Pow2(k) ==> High(x, k) == high && Low(x, k) == low
  {
    Split(x, k);
    ScaleIs(High(x, k), k);
    ScaleIs(high, k);
    if x == Scale(high, k) + low && low < Pow2(k) {
      SplitUnique(x, k, high, low);
    }
  }

  lemma SplitNone(x: nat)
    ensures High(x, 0) == x && Low(x, 0) == 0
  {
  }

  lemma SplitStep(x: nat, k: nat)
    ensures High(x, k + 1) == High(x / 2, k)
    ensures Low(x, k + 1) == 2 * Low(x / 2, k) + x % 2
  {
    DivDiv(x, 2, Pow2(k));
  }

  lemma HighBound(x: nat, k: nat, bound: nat)
    ensures High(x, k) < bound <==> x < bound * Pow2(k)
  {
    DivBound(x, Pow2(k), bound);
  }

  lemma HighHigh(x: nat, a: nat, b: nat)
    ensures High(High(x, a), b) == High(x, a + b)
    ensures Low(x, a + b) == Low(High(x, a), b) * Pow2(a) + Low(x, a)
  {
    DivDiv(x, Pow2(a), Pow2(b));
    Pow2Add(a, b);
  }

  lemma Pow2Literals()
    ensures Pow2(0) == 1 && Pow2(1) == 2 && Pow2(2) == 4 && Pow2(3) == 8 && Pow2(5) == 32
    ensures Pow2(8) == 0x100 && Pow2(16) == 0x1_0000
    ensures Pow2(23) == 0x80_0000 && Pow2(24) == 0x100_0000
    ensures Pow2(26) == 0x400_0000 && Pow2(27) == 0x800_0000
    ensures Pow2(31) == 0x8000_0000 && Pow2(32) == 0x1_0000_0000
  {
    assert Pow2(8) == 256;
    Pow2Add(8, 8);
    Pow2Add(8, 16);
    assert Pow2(24) == 2 * Pow2(23);
    assert Pow2(27) == 8 * Pow2(24);
    assert Pow2(26) == 4 * Pow2(24);
    Pow2Add(8, 24);
    assert Pow2(32) == 2 * Pow2(31);
  }

  lemma Pow2WideLiterals()
    ensures Pow2(46) == 0x4000_0000_0000 && Pow2(47) == 0x8000_0000_0000 && Pow2(48) == 0x1_0000_0000_0000
    ensures Pow2(61) == 0x2000_0000_0000_0000 && Pow2(62) == 0x4000_0000_0000_0000
    ensures Pow2(63) == 0x8000_0000_0000_0000 && Pow2(64) == 0x1_0000_0000_0000_0000
  {
    Pow2Literals();
    Pow2Add(24, 24);
    assert Pow2(48) == 2 * Pow2(47) && Pow2(47) == 2 * Pow2(46);
    Pow2Add(32, 32);
    assert Pow2(64) == 2 * Pow2(63) && Pow2(63) == 2 * Pow2(62) && Pow2(62) == 2 * Pow2(61);
  }
}
