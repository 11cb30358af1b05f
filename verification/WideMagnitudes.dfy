/** Two-word magnitudes: the low word first, as the vec2<u32> of the kernels. */
module WideMagnitudes {
  import opened Powers
  import opened Words
  import opened Rounding

  datatype Vec2 = Vec2(x: u32, y: u32)

  function Wide(v: Vec2): (w: nat)
    ensures w < 0x1_0000_0000_0000_0000
  {
    v.y * 0x1_0000_0000 + v.x
  }

  /** The exact product of two 24-bit significands from 16-bit halves. */
  function SignificandProduct(left: u32, right: u32): Vec2 {
    ProductWords(MulWord(And(left, 65535), And(right, 65535)),
                 MulWord(Shr(left, 16), And(right, 65535)), MulWord(And(left, 65535), Shr(right, 16)),
                 MulWord(Shr(left, 16), Shr(right, 16)))
  }

  function ProductWords(lowProduct: u32, leftCross: u32, rightCross: u32, highProduct: u32): Vec2 {
    var cross := AddWord(leftCross, rightCross);
    var low := AddWord(lowProduct, Shl(cross, 16));
    Vec2(low, AddWord(AddWord(highProduct, Shr(cross, 16)), Select(low < lowProduct)))
  }

  function LeftMagnitude(v: Vec2, distance: u32): Vec2
    requires distance < 64
  {
    if distance == 0 then v
    else if distance < 32 then Vec2(Shl(v.x, distance), Or(Shl(v.y, distance), Shr(v.x, 32 - distance)))
    else if distance == 32 then Vec2(0, v.x)
    else Vec2(0, Shl(v.x, distance - 32))
  }

  function JamMagnitude(v: Vec2, distance: u32): Vec2 {
    if distance == 0 then v
    else if distance >= 64 then Vec2(Select(Or(v.x, v.y) != 0), 0)
    else if distance < 32 then
      Vec2(Or(Or(Shr(v.x, distance), Shl(v.y, 32 - distance)), Select(Shl(v.x, 32 - distance) != 0)),
           Shr(v.y, distance))
    else if distance == 32 then Vec2(Or(v.y, Select(v.x != 0)), 0)
    else
      var shift := distance - 32;
      Vec2(Or(Shr(v.y, shift), Select(v.x != 0 || Shl(v.y, 32 - shift) != 0)), 0)
  }

  function AddMagnitudes(a: Vec2, b: Vec2): Vec2 {
    var low := AddWord(a.x, b.x);
    Vec2(low, AddWord(AddWord(a.y, b.y), Select(low < a.x)))
  }

  function SubtractMagnitudes(a: Vec2, b: Vec2): Vec2 {
    Vec2(SubWord(a.x, b.x), SubWord(SubWord(a.y, b.y), Select(a.x < b.x)))
  }

  function RoundMagnitude(v: Vec2, distance: u32): u32
    requires distance > 32
  {
    if distance > 64 then 0
    else if distance == 64 then Select(v.y > 0x8000_0000 || (v.y == 0x8000_0000 && v.x != 0))
    else
      var shift := distance - 32;
      var quotient := Shr(v.y, shift);
      var remainder := And(v.y, SubWord(Shl(1, shift), 1));
      var half := Shl(1, shift - 1);
      AddWord(quotient, Select(remainder > half || (remainder == half && (v.x != 0 || And(quotient, 1) != 0))))
  }

  /** What a left shift keeps and what it pushes into the next word. */
  lemma ShlSplit(x: u32, k: nat)
    requires 0 < k < 32
    ensures Scale(x, k) == Shr(x, 32 - k) * 0x1_0000_0000 + Shl(x, k)
    ensures Shr(x, 32 - k) < Pow2(k)
    ensures Shl(x, k) == Scale(Low(x, 32 - k), k)
    ensures Shl(x, k) == 0 <==> Low(x, 32 - k) == 0
  {
    var d := 32 - k;
    var h, l := High(x, d), Low(x, d);
    Split(x, d);
    Pow2Literals();
    HighBound(x, d, Pow2(k));
    Pow2Add(k, d);
    ScaleIs(x, k);
    ScaleIs(h, d);
    ScaleSum(Scale(h, d), l, k);
    ScaleScale(h, d, k);
    ScaleIs(h, 32);
    ScaleOrder(l, Pow2(d), k);
    ScalePow2(d, k);
    ScaleOrder(0, l, k);
    ScaleOrder(l, 0, k);
    assert Scale(0, k) == 0;
    hide High, Low, Pow2, Scale;
    assert Scale(x, k) == h * 0x1_0000_0000 + Scale(l, k);
    DivModUnique(Scale(x, k), 0x1_0000_0000, h, Scale(l, k));
  }

  lemma ProductParts(left: nat, right: nat, lh: nat, ll: nat, rh: nat, rl: nat)
    requires left == lh * 0x1_0000 + ll && right == rh * 0x1_0000 + rl
    ensures left * right == lh * rh * 0x1_0000_0000 + (lh * rl + ll * rh) * 0x1_0000 + ll * rl
  {
    MulDistributes(lh * 0x1_0000, ll, right);
    MulDistributes(rh * 0x1_0000, rl, ll);
    MulDistributes(rh * 0x1_0000, rl, lh);
    MulAssoc(lh, 0x1_0000, right);
  }

  lemma ProductBound(a: nat, b: nat, p: nat, q: nat)
    requires a <= p && b <= q
    ensures a * b <= p * q
  {
    MulMonotone(a, p, b);
    MulMonotone(b, q, p);
  }

  lemma HalfWords(w: u32)
    requires w < 0x100_0000
    ensures And(w, 65535) == w % 0x1_0000 && Shr(w, 16) == w / 0x1_0000
    ensures Shr(w, 16) <= 255
  {
    Pow2Literals();
    AndMask(w, 16);
  }

  lemma MulWordExact(a: u32, b: u32)
    requires a * b < 0x1_0000_0000
    ensures MulWord(a, b) == a * b
  {
  }

  lemma SignificandProductExact(left: u32, right: u32)
    requires left < 0x100_0000 && right < 0x100_0000
    ensures Wide(SignificandProduct(left, right)) == left * right
  {
    hide MulWord, And, Shr, ProductWords, Wide;
    var lh, ll := Shr(left, 16), And(left, 65535);
    var rh, rl := Shr(right, 16), And(right, 65535);
    HalfWords(left);
    HalfWords(right);
    PartialProduct(ll, rl, 65535, 65535);
    PartialProduct(lh, rl, 255, 65535);
    PartialProduct(ll, rh, 65535, 255);
    PartialProduct(lh, rh, 255, 255);
    ProductParts(left, right, lh, ll, rh, rl);
    ProductWordsExact(ll * rl, lh * rl, ll * rh, lh * rh);
  }

  lemma PartialProduct(a: u32, b: u32, p: nat, q: nat)
    requires a <= p && b <= q && p * q < 0x1_0000_0000
    ensures MulWord(a, b) == a * b <= p * q
  {
    ProductBound(a, b, p, q);
    MulWordExact(a, b);
  }

  lemma ProductWordsExact(lowProduct: u32, leftCross: u32, rightCross: u32, highProduct: u32)
    requires leftCross <= 255 * 65535 && rightCross <= 255 * 65535 && highProduct <= 255 * 255
    ensures Wide(ProductWords(lowProduct, leftCross, rightCross, highProduct))
         == highProduct * 0x1_0000_0000 + (leftCross + rightCross) * 0x1_0000 + lowProduct
  {
    Pow2Literals();
    hide Pow2;
    var cross := leftCross + rightCross;
    assert Shl(cross, 16) == (cross % 0x1_0000) * 0x1_0000;
    assert Shr(cross, 16) == cross / 0x1_0000;
  }

  lemma WideScale(v: Vec2, k: nat)
    ensures Scale(Wide(v), k) == Scale(v.y, k) * 0x1_0000_0000 + Scale(v.x, k)
  {
    var high := v.y * 0x1_0000_0000;
    ScaleSum(high, v.x, k);
    ScaleIs(high, k);
    ScaleIs(v.y, k);
    MulAssoc(v.y, 0x1_0000_0000, Pow2(k));
    hide Scale, Pow2;
  }

  lemma LeftMagnitudeExact(v: Vec2, distance: u32)
    requires distance < 64
    requires Scale(Wide(v), distance) < 0x1_0000_0000_0000_0000
    ensures Wide(LeftMagnitude(v, distance)) == Scale(Wide(v), distance)
  {
    hide *;
    WideScale(v, distance);
    if distance == 0 {
      LeftNone(v);
    } else if distance < 32 {
      LeftShort(v, distance);
    } else {
      LeftLong(v, distance);
    }
  }

  lemma LeftNone(v: Vec2)
    ensures Wide(LeftMagnitude(v, 0)) == Scale(Wide(v), 0)
  {
    ScalePow2(Wide(v), 0);
  }

  lemma ShlExact(x: u32, k: nat)
    requires k < 32 && Scale(x, k) < 0x1_0000_0000
    ensures Shl(x, k) == Scale(x, k)
  {
  }

  lemma OrShifted(high: u32, low: u32, k: nat)
    requires k < 32 && low < Pow2(k) && Scale(high, k) < 0x1_0000_0000
    ensures Or(Shl(high, k), low) == Shl(high, k) + low
  {
    ShlExact(high, k);
    ScaleIs(high, k);
    OrDisjoint(high, low, k);
  }

  lemma LeftShort(v: Vec2, distance: u32)
    requires 0 < distance < 32
    requires Scale(Wide(v), distance) < 0x1_0000_0000_0000_0000
    requires Scale(Wide(v), distance) == Scale(v.y, distance) * 0x1_0000_0000 + Scale(v.x, distance)
    ensures Wide(LeftMagnitude(v, distance)) == Scale(Wide(v), distance)
  {
    hide Shl, Shr, Or, Scale, Pow2;
    ShlSplit(v.x, distance);
    ShlExact(v.y, distance);
    OrShifted(v.y, Shr(v.x, 32 - distance), distance);
  }

  lemma LeftLong(v: Vec2, distance: u32)
    requires 32 <= distance < 64
    requires Scale(Wide(v), distance) < 0x1_0000_0000_0000_0000
    requires Scale(Wide(v), distance) == Scale(v.y, distance) * 0x1_0000_0000 + Scale(v.x, distance)
    ensures Wide(LeftMagnitude(v, distance)) == Scale(Wide(v), distance)
  {
    hide Shl, Shr, Or, Scale, Pow2;
    var rest := distance - 32;
    ScaleScale(v.x, rest, 32);
    ScaleScale(v.y, rest, 32);
    Pow2Literals();
    ScaleIs(Scale(v.x, rest), 32);
    ScaleIs(Scale(v.y, rest), 32);
    ScaleOrder(1, v.y, rest);
    ScalePow2(0, rest);
    assert v.y == 0;
    ScalePow2(0, distance);
    if rest == 0 {
      ScaleZero(v.x);
    } else {
      ShlExact(v.x, rest);
    }
  }

  lemma WideSplit(v: Vec2)
    ensures High(Wide(v), 32) == v.y && Low(Wide(v), 32) == v.x
  {
    Pow2Literals();
  }

  lemma JamMagnitudeExact(v: Vec2, distance: u32)
    ensures Wide(JamMagnitude(v, distance)) == Jam(Wide(v), distance)
  {
    if distance == 0 {
      SplitUnique(Wide(v), 0, Wide(v), 0);
    } else if distance >= 64 {
      JamAll(v, distance);
    } else if distance < 32 {
      JamShort(v, distance);
    } else {
      JamLong(v, distance);
    }
  }

  lemma JamAll(v: Vec2, distance: u32)
    requires distance >= 64
    ensures Wide(JamMagnitude(v, distance)) == Jam(Wide(v), distance)
  {
    Pow2WideLiterals();
    Pow2Monotone(64, distance);
    hide Pow2;
    SplitUnique(Wide(v), distance, 0, Wide(v));
    assert Or(v.x, v.y) == 0 <==> Wide(v) == 0;
  }

  lemma JamShort(v: Vec2, distance: u32)
    requires 0 < distance < 32
    ensures Wide(JamMagnitude(v, distance)) == Jam(Wide(v), distance)
  {
    hide High, Low, Shl, Shr, Or, Pow2, Scale, Wide, Jam;
    var k := 32 - distance;
    ShlSplit(v.x, k);
    ShlSplit(v.y, k);
    JamShortSplit(v, distance);
    var low, high := Shr(v.x, distance), Shl(v.y, k);
    OrLowDigits(low, Low(v.y, distance), k);
    var sticky := Select(Shl(v.x, k) != 0);
    OrSticky(Or(low, high), sticky);
    JamShortWords(Wide(v), distance, low, high, Shr(v.y, distance), sticky);
    WideIs(JamMagnitude(v, distance));
  }

  lemma WideIs(v: Vec2)
    ensures Wide(v) == v.x + v.y * 0x1_0000_0000
  {
  }

  lemma OrLowDigits(low: u32, digits: nat, k: nat)
    requires low < Pow2(k) && Scale(digits, k) < 0x1_0000_0000
    ensures Or(low, Scale(digits, k)) == low + Scale(digits, k)
  {
    ScaleIs(digits, k);
    OrDisjoint(digits, low, k);
    OrCommutes(low, Scale(digits, k));
  }

  lemma OrSticky(w: u32, bit: u32)
    requires bit <= 1
    ensures Or(w, bit) == if bit == 1 && w % 2 == 0 then w + 1 else w
  {
    OrBit(w, bit);
  }

  lemma JamShortWords(w: nat, distance: nat, low: u32, high: u32, top: u32, sticky: u32)
    requires High(w, distance) == top * 0x1_0000_0000 + high + low && high + low < 0x1_0000_0000
    requires sticky <= 1 && (sticky == 1 <==> Low(w, distance) != 0)
    ensures (if sticky == 1 && (high + low) % 2 == 0 then high + low + 1 else high + low) + top * 0x1_0000_0000
         == Jam(w, distance)
  {
    hide High, Low;
  }

  lemma JamShortSplit(v: Vec2, distance: u32)
    requires 0 < distance < 32
    ensures var k := 32 - distance;
            && High(Wide(v), distance) == Shr(v.y, distance) * 0x1_0000_0000 + Shl(v.y, k) + Shr(v.x, distance)
            && Low(Wide(v), distance) == Low(v.x, distance)
            && Shr(v.x, distance) < Pow2(k)
  {
    var k := 32 - distance;
    ShlSplit(v.y, k);
    ShlSplit(v.x, k);
    hide *;
    Pow2Literals();
    Split(v.x, distance);
    ScaleIs(v.y, k);
    ScaleScale(v.y, k, distance);
    ScaleIs(v.y, 32);
    var high := Scale(v.y, k) + High(v.x, distance);
    ScaleSum(Scale(v.y, k), High(v.x, distance), distance);
    ScaleIs(high, distance);
    ScaleIs(High(v.x, distance), distance);
    SplitUnique(Wide(v), distance, high, Low(v.x, distance));
    HighBound(v.x, distance, Pow2(k));
    Pow2Add(k, distance);
  }

  lemma JamLong(v: Vec2, distance: u32)
    requires 32 <= distance < 64
    ensures Wide(JamMagnitude(v, distance)) == Jam(Wide(v), distance)
  {
    hide High, Low, Shl, Shr, Or, Pow2, Scale, Wide;
    var shift := distance - 32;
    WideSplit(v);
    HighHigh(Wide(v), 32, shift);
    Pow2Literals();
    WideIs(JamMagnitude(v, distance));
    if shift == 0 {
      SplitUnique(v.y, 0, v.y, 0);
      OrSticky(v.y, Select(v.x != 0));
    } else {
      ShrIs(v.y, shift);
      ShlSplit(v.y, 32 - shift);
      OrSticky(Shr(v.y, shift), Select(v.x != 0 || Shl(v.y, 32 - shift) != 0));
    }
  }

  lemma ShrIs(x: u32, k: nat)
    requires k < 32
    ensures Shr(x, k) == High(x, k)
  {
  }

  lemma AddMagnitudesExact(a: Vec2, b: Vec2)
    requires Wide(a) + Wide(b) < 0x1_0000_0000_0000_0000
    ensures Wide(AddMagnitudes(a, b)) == Wide(a) + Wide(b)
  {
  }

  lemma SubtractMagnitudesExact(a: Vec2, b: Vec2)
    requires Wide(b) <= Wide(a)
    ensures Wide(SubtractMagnitudes(a, b)) == Wide(a) - Wide(b)
  {
  }

  lemma RoundMagnitudeExact(v: Vec2, distance: u32)
    requires distance > 32
    ensures RoundMagnitude(v, distance) == RoundHalfEven(Wide(v), distance)
  {
    if distance > 64 {
      RoundAway(v, distance);
    } else if distance == 64 {
      Pow2WideLiterals();
      SplitUnique(Wide(v), 64, 0, Wide(v));
    } else {
      RoundWithin(v, distance);
    }
  }

  lemma RoundAway(v: Vec2, distance: u32)
    requires distance > 64
    ensures RoundHalfEven(Wide(v), distance) == 0
  {
    Pow2WideLiterals();
    Pow2Double(64);
    Pow2Monotone(65, distance);
    hide Pow2;
    SplitUnique(Wide(v), distance, 0, Wide(v));
  }

  lemma PowerMask(k: nat)
    requires k < 32
    ensures Shl(1, k) == Pow2(k) && SubWord(Shl(1, k), 1) == Pow2(k) - 1
  {
    Pow2Literals();
    Pow2Strict(k, 32);
    hide Pow2;
  }

  /** Comparing the discarded digits with one half, word by word. */
  lemma RoundWords(v: Vec2, shift: nat)
    requires 1 <= shift < 32
    ensures Low(Wide(v), 32 + shift) == Low(v.y, shift) * 0x1_0000_0000 + v.x
    ensures High(Wide(v), 32 + shift) == Shr(v.y, shift)
    ensures Pow2(32 + shift) == 2 * Pow2(shift - 1) * 0x1_0000_0000
  {
    hide *;
    WideSplit(v);
    HighHigh(Wide(v), 32, shift);
    ShrIs(v.y, shift);
    Pow2Literals();
    Pow2Double(shift - 1);
    Pow2Add(32, shift);
  }

  lemma AndOne(w: u32)
    ensures And(w, 1) == w % 2
  {
    AndMask(w, 1);
    Pow2Literals();
  }

  lemma ShrHalf(w: u32, k: nat)
    requires 1 <= k < 32
    ensures Shr(w, k) < 0x8000_0000
  {
    Pow2Monotone(1, k);
    Pow2Literals();
    hide Pow2;
    MulMonotone(2, Pow2(k), 0x8000_0000);
    HighBound(w, k, 0x8000_0000);
  }

  lemma RoundWithin(v: Vec2, distance: u32)
    requires 32 < distance < 64
    ensures RoundMagnitude(v, distance) == RoundHalfEven(Wide(v), distance)
  {
    hide High, Low, Pow2, Shl, Shr, And, Wide;
    var shift := distance - 32;
    PowerMask(shift);
    PowerMask(shift - 1);
    MaskLow(v.y, shift);
    AndOne(Shr(v.y, shift));
    ShrHalf(v.y, shift);
    RoundWords(v, shift);
  }

  lemma MaskLow(w: u32, k: nat)
    requires k < 32
    ensures And(w, SubWord(Shl(1, k), 1)) == Low(w, k)
  {
    PowerMask(k);
    AndMask(w, k);
  }
}
