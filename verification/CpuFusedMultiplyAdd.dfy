/**
 * The CPU kernel for parameter + gradient * alpha: an exact binary64 product, a
 * compensated sum, and a correction of the conversion to binary32.
 */
module CpuFusedMultiplyAdd {
  import opened Powers
  import opened Words
  import opened Binary32
  import opened Binary64
  import opened WideMagnitudes
  import opened Midpoints
  import opened FusedMultiplyAdd

  /**
   * A binary64 value. A number carries the sign of its zero; numbers widened
   * from binary32 are in units of 2^-149, products and sums in units of 2^-298.
   */
  datatype Double = NotANumber | Infinity(negative: bool) | Number(value: int, negative: bool) {
    predicate Valid() { Number? && value != 0 ==> negative == (value < 0) }
  }

  /** The conversion from binary32, which is exact. */
  function Widen(w: u32): (d: Double)
    ensures d.Valid()
  {
    if IsNaN(w) then NotANumber
    else if IsInfinite(w) then Infinity(Negative(w))
    else
      CoefficientPositive(Magnitude(w));
      Number(Exact(w), Negative(w))
  }

  /** The same number in units of 2^-298. */
  function InProductUnits(d: Double): (r: Double)
    requires d.Valid()
    ensures r.Valid()
  {
    if d.Number? then
      ScaleOrder(d.value, 0, 149);
      ScaleOrder(0, d.value, 149);
      ScalePow2(0, 149);
      Number(Scale(d.value, 149), d.negative)
    else d
  }

  function Multiply64(a: Double, b: Double): Double {
    if a.NotANumber? || b.NotANumber? then NotANumber
    else if a.Infinity? || b.Infinity? then
      if (a.Number? && a.value == 0) || (b.Number? && b.value == 0) then NotANumber
      else Infinity(a.negative != b.negative)
    else Number(Round53(a.value * b.value), a.negative != b.negative)
  }

  function Add64(a: Double, b: Double): Double {
    if a.NotANumber? || b.NotANumber? then NotANumber
    else if a.Infinity? then
      if b.Infinity? && a.negative != b.negative then NotANumber else a
    else if b.Infinity? then b
    else
      var sum := a.value + b.value;
      Number(Round53(sum), if sum == 0 then a.negative && b.negative else sum < 0)
  }

  function Subtract64(a: Double, b: Double): Double {
    Add64(a, match b
             case NotANumber => NotANumber
             case Infinity(negative) => Infinity(!negative)
             case Number(value, negative) => Number(0 - value, !negative))
  }

  /** The conversion to binary32; the payload of a NaN is the platform's choice. */
  function Narrow(d: Double, nan: u32): (w: u32) {
    match d
    case NotANumber => nan
    case Infinity(negative) => SignBit(negative) + INFINITE
    case Number(value, negative) =>
      NarrowNearest(Abs(value));
      SignBit(negative) + NarrowMagnitude(Abs(value))
  }

  function NextUp(bits: u32): u32 {
    if And(bits, 0x7fff_ffff) == 0 then 1
    else if Shr(bits, 31) != 0 then SubWord(bits, 1)
    else AddWord(bits, 1)
  }

  function NextDown(bits: u32): u32 {
    if And(bits, 0x7fff_ffff) == 0 then 0x8000_0001
    else if Shr(bits, 31) != 0 then AddWord(bits, 1)
    else SubWord(bits, 1)
  }

  /** 2^128 - 2^103, halfway from the largest finite binary32 to 2^128. */
  function OverflowTie(): nat { Scale(0x1ff_ffff, 401) }

  function Neighbour(candidate: u32, low: int): u32 {
    if low > 0 then NextUp(candidate) else NextDown(candidate)
  }

  /** high is half the sum of both words; the halving itself is exact. */
  predicate IsMiddle(high: int, candidate: u32, neighbour: u32)
    requires IsFinite(candidate) && IsFinite(neighbour)
  {
    2 * high == Round53(Scale(Exact(candidate), 149) + Scale(Exact(neighbour), 149))
  }

  /** Away from zero, towards it, or across it. */
  lemma NeighbourIs(candidate: u32, low: int)
    requires IsFinite(candidate) && low != 0
    ensures var n, m := Neighbour(candidate, low), Magnitude(candidate);
            if (low < 0) == Negative(candidate) then Negative(n) == Negative(candidate) && Magnitude(n) == m + 1
            else if m > 0 then Negative(n) == Negative(candidate) && Magnitude(n) == m - 1
            else Negative(n) != Negative(candidate) && Magnitude(n) == 1
  {
    SignMask(candidate);
    hide And, Shr;
  }

  lemma Round53Negation(x: int)
    ensures Round53(0 - x) == 0 - Round53(x)
  {
    if x == 0 {
      ZeroRepresentable();
      RoundedExact(0);
    } else {
      hide Scale, Ulp;
    }
  }

  lemma TieIsMiddle()
    ensures OverflowTie() == Middle(INFINITE - 1)
  {
    CoefficientAt(253, 0xff_ffff);
    CoefficientAt(253, 0x100_0000);
    ScaleSum(0xff_ffff, 0x100_0000, 253);
    ScaleScale(0x1ff_ffff, 253, 148);
    hide Scale, Coefficient;
  }

  /** Together two neighbouring words are twice their middle. */
  lemma SumOfWords(candidate: u32, neighbour: u32, m: nat)
    requires m + 1 < INFINITE && Negative(neighbour) == Negative(candidate)
    requires (Magnitude(candidate) == m && Magnitude(neighbour) == m + 1)
          || (Magnitude(candidate) == m + 1 && Magnitude(neighbour) == m)
    ensures IsFinite(candidate) && IsFinite(neighbour)
    ensures Scale(Exact(candidate), 149) + Scale(Exact(neighbour), 149)
         == if Negative(candidate) then 0 - 2 * Middle(m) else 2 * Middle(m)
  {
    hide Scale, Coefficient, Middle;
    DoubleMiddle(m);
    ScaleNegation(Coefficient(m));
    ScaleNegation(Coefficient(m + 1));
  }

  /** The middle of two magnitudes of one sign is found exactly. */
  lemma MiddleOfWords(high: int, candidate: u32, neighbour: u32, m: nat)
    requires m + 1 < INFINITE && Negative(neighbour) == Negative(candidate)
    requires (Magnitude(candidate) == m && Magnitude(neighbour) == m + 1)
          || (Magnitude(candidate) == m + 1 && Magnitude(neighbour) == m)
    ensures IsMiddle(high, candidate, neighbour) <==> high == if Negative(candidate) then 0 - Middle(m) else Middle(m)
  {
    hide Scale, Coefficient, Middle, Round53, Representable, Exact, Magnitude, Negative;
    SumOfWords(candidate, neighbour, m);
    MiddleRepresentable(m);
    RoundedExact(2 * Middle(m));
    Round53Negation(2 * Middle(m));
  }

  lemma ScaleNegation(x: int)
    ensures Scale(0 - x, 149) == 0 - Scale(x, 149)
  {
    hide Scale;
    ScaleSum(x, 0 - x, 149);
    ScalePow2(0, 149);
  }

  /** Across zero there is no middle on the side of the candidate. */
  lemma NoMiddleAcrossZero(high: int, candidate: u32, neighbour: u32)
    requires Magnitude(candidate) == 0 && Magnitude(neighbour) == 1 && Negative(neighbour) != Negative(candidate)
    requires high != 0 && Negative(candidate) == (high < 0)
    ensures !IsMiddle(high, candidate, neighbour)
  {
    ScaleNegation(1);
    ScalePow2(0, 149);
    hide Scale, Round53;
    Round53Negation(Scale(1, 149));
  }

  /** The rounded value has the sign of the exact one, and both vanish together. */
  lemma RoundedSign(s: int)
    ensures Round53(s) == 0 <==> s == 0
    ensures Round53(s) < 0 <==> s < 0
    ensures Abs(Round53(s)) == Round53(Abs(s))
  {
    ZeroRepresentable();
    RoundedExact(0);
    Round53Negation(s);
    OneRepresentable();
    RoundedIsNearest(s, 1);
    RoundedIsNearest(s, -1);
    hide Round53, Representable;
  }

  lemma OneRepresentable()
    ensures Representable(1) && Representable(-1)
  {
    FewDigits(1, 0);
    ScaleZero(1);
    RepresentableNegation(1);
  }

  function Outward(high: int, low: int): int { if high < 0 then 0 - low else low }

  /** The neighbour that the source picks is the one the residual calls for. */
  lemma NeighbourChosen(high: int, low: int, candidate: u32, m: nat)
    requires high != 0 && low != 0 && m < INFINITE
    requires Magnitude(candidate) == m && Negative(candidate) == (high < 0)
    ensures var n, r := Neighbour(candidate, low), Corrected(Abs(high), Outward(high, low), m);
            if IsFinite(n) && IsMiddle(high, candidate, n)
            then Magnitude(n) == r && Negative(n) == Negative(candidate)
            else r == m
  {
    hide Neighbour, IsMiddle, Middle;
    NeighbourIs(candidate, low);
    var n := Neighbour(candidate, low);
    if (low < 0) == (high < 0) {
      if IsFinite(n) {
        MiddleOfWords(high, candidate, n, m);
      }
    } else if m > 0 {
      MiddleOfWords(high, candidate, n, m - 1);
      MiddlePositive(m - 1);
    } else {
      NoMiddleAcrossZero(high, candidate, n);
    }
  }

  lemma TieChosen(high: int, low: int)
    requires Abs(high) == OverflowTie() && Outward(high, low) < 0
    ensures Corrected(Abs(high), Outward(high, low), NarrowMagnitude(Abs(high))) == INFINITE - 1
  {
    hide Middle, OverflowTie, Nearest, NarrowMagnitude;
    TieIsMiddle();
    NarrowNearest(Abs(high));
    MiddleStep(INFINITE - 2);
    NearestIsBetween(Abs(high), INFINITE);
    NearestUnique(Abs(high), Pow2(149), INFINITE, NarrowMagnitude(Abs(high)));
  }

  /** A candidate past the range stays there, apart from the tie. */
  lemma InfiniteKept(high: int, low: int)
    requires Abs(high) == OverflowTie() ==> Outward(high, low) >= 0
    ensures Corrected(Abs(high), Outward(high, low), INFINITE) == INFINITE
  {
    hide Middle, OverflowTie;
    TieIsMiddle();
  }

  lemma CorrectedSum(s: int, word: u32)
    requires s != 0 && Negative(word) == (s < 0)
    requires var h := Round53(s);
             Magnitude(word) == Corrected(Abs(h), Outward(h, s - h), NarrowMagnitude(Abs(h)))
    ensures RoundsTo(s, Pow2(149), word)
  {
    hide Round53, NarrowMagnitude, Nearest, Corrected;
    RoundedSign(s);
    NarrowNearest(Abs(Round53(s)));
    CorrectedNearest(Abs(s), NarrowMagnitude(Abs(Round53(s))));
  }

  lemma ZeroCandidate(high: Double, nan: u32)
    requires high.Number? && high.value == 0
    ensures Narrow(high, nan) == SignBit(high.negative)
  {
    NearestOfRepresentable(0, Pow2(149));
    NarrowNearest(0);
    NearestUnique(0, Pow2(149), 0, NarrowMagnitude(0));
    hide NarrowMagnitude, Nearest;
  }

  lemma CandidateIs(high: Double, nan: u32)
    requires high.Number?
    ensures Magnitude(Narrow(high, nan)) == NarrowMagnitude(Abs(high.value)) <= INFINITE
    ensures Negative(Narrow(high, nan)) == high.negative
  {
    hide NarrowMagnitude;
    NarrowNearest(Abs(high.value));
  }

  /** midpoint_correct on a high part and its residual: the exact sum s rounded once. */
  method MidpointCorrect(high: Double, low: Double, nan: u32, ghost s: int) returns (word: u32)
    requires high.Valid() && high.Number? && low.Number?
    requires high.value == Round53(s) && low.value == s - Round53(s)
    ensures RoundedSum(s, Pow2(149), high.negative, word)
  {
    hide NarrowMagnitude, Round53, Corrected, Narrow, OverflowTie, RoundsTo, SignBit, IsMiddle, Neighbour;
    RoundedSign(s);
    CandidateIs(high, nan);
    var candidate := Narrow(high, nan);
    if high.value == OverflowTie() && low.value < 0 {
      word := 0x7f7f_ffff;
      TieChosen(high.value, low.value);
    } else if high.value == 0 - OverflowTie() && low.value > 0 {
      word := 0xff7f_ffff;
      TieChosen(high.value, low.value);
    } else if low.value == 0 || !IsFinite(candidate) {
      word := candidate;
      if s == 0 {
        ZeroCandidate(high, nan);
      } else if low.value != 0 {
        InfiniteKept(high.value, low.value);
      } else {
        NoResidual(high.value, NarrowMagnitude(Abs(high.value)));
      }
    } else {
      var neighbour := Neighbour(candidate, low.value);
      NeighbourChosen(high.value, low.value, candidate, Magnitude(candidate));
      if IsFinite(neighbour) && IsMiddle(high.value, candidate, neighbour) {
        word := neighbour;
      } else {
        word := candidate;
      }
    }
    if s != 0 {
      CorrectedSum(s, word);
    }
  }

  lemma NoResidual(high: int, m: nat)
    requires m <= INFINITE
    ensures Corrected(Abs(high), Outward(high, 0), m) == m
  {
  }

  /** A product of two widened operands has at most 48 digits: binary64 holds it exactly. */
  lemma ProductExact(g: u32, alpha: u32)
    requires IsFinite(g) && IsFinite(alpha)
    ensures Round53(Exact(g) * Exact(alpha)) == Exact(g) * Exact(alpha)
    ensures Representable(Exact(g) * Exact(alpha))
  {
    hide Scale, Pow2, Coefficient, Representable, Round53;
    var product := ProductCoefficient(g, alpha);
    var i, a := Decompose(Magnitude(g));
    var j, b := Decompose(Magnitude(alpha));
    ScaleProduct(a, b, i, j);
    ProductBound(a, b, 0xff_ffff, 0xff_ffff);
    FewDigits(a * b, i + j);
    SignedProduct(Coefficient(Magnitude(g)), Coefficient(Magnitude(alpha)));
    RepresentableNegation(product);
    RoundedExact(Exact(g) * Exact(alpha));
  }

  lemma WidenedRepresentable(p: u32)
    requires IsFinite(p)
    ensures Representable(Scale(Exact(p), 149))
  {
    hide Scale, Pow2, Coefficient, Representable;
    var j, q := Decompose(Magnitude(p));
    ScaleScale(q, j, 149);
    FewDigits(q, j + 149);
    RepresentableNegation(Scale(q, j + 149));
    ScaleNegation(Coefficient(Magnitude(p)));
  }

  /** The sum of a product and an addend, and what its rounding loses. */
  method CompensatedSum(product: Double, addend: Double) returns (high: Double, low: Double)
    requires product.Valid() && addend.Valid()
    ensures high == Add64(product, addend)
    ensures product.Number? && addend.Number? && Representable(product.value) && Representable(addend.value) ==>
              low.Number? && low.value == product.value + addend.value - Round53(product.value + addend.value)
  {
    hide Round53, Representable;
    high := Add64(product, addend);
    var z := Subtract64(high, product);
    low := Add64(Subtract64(product, Subtract64(high, z)), Subtract64(addend, z));
    if product.Number? && addend.Number? && Representable(product.value) && Representable(addend.value) {
      TwoSumExact(product.value, addend.value);
    }
  }

  /** A word up to the payload of its NaN. */
  function Canonical(w: u32): u32 { if IsNaN(w) then QUIET_NAN else w }

  predicate AllFinite(p: u32, g: u32, alpha: u32) { IsFinite(p) && IsFinite(g) && IsFinite(alpha) }

  function Product(g: u32, alpha: u32): Double { Multiply64(Widen(g), Widen(alpha)) }

  function Addend(p: u32): (d: Double)
    ensures d.Valid()
  {
    InProductUnits(Widen(p))
  }

  lemma FiniteOperands(p: u32, g: u32, alpha: u32)
    requires AllFinite(p, g, alpha)
    ensures var product, addend, s := Product(g, alpha), Addend(p), ExactSum(p, g, alpha);
            && product.Valid() && product.Number? && addend.Number?
            && Representable(product.value) && Representable(addend.value)
            && product.value + addend.value == s
            && Add64(product, addend).value == Round53(s)
            && (s == 0 ==> Add64(product, addend).negative == (Negative(p) && ProductNegative(g, alpha)))
  {
    hide Round53, Scale, Representable;
    ProductExact(g, alpha);
    WidenedRepresentable(p);
    ProductSign(g, alpha);
  }

  lemma ProductSign(g: u32, alpha: u32)
    requires IsFinite(g) && IsFinite(alpha)
    ensures Exact(g) * Exact(alpha) != 0 ==> ProductNegative(g, alpha) == (Exact(g) * Exact(alpha) < 0)
  {
    hide Coefficient;
    SignedProduct(Coefficient(Magnitude(g)), Coefficient(Magnitude(alpha)));
    ProductBound(0, 0, Coefficient(Magnitude(g)), Coefficient(Magnitude(alpha)));
  }

  lemma RoundedIsNumber(s: int, zeroIsNegative: bool, word: u32)
    requires RoundedSum(s, Pow2(149), zeroIsNegative, word)
    ensures !IsNaN(word)
  {
    hide Pow2, Coefficient;
  }

  lemma SpecialOperands(p: u32, g: u32, alpha: u32, nan: u32)
    requires IsNaN(nan) && !AllFinite(p, g, alpha)
    ensures FusedMultiplyAddResult(p, g, alpha, Canonical(Narrow(Add64(Product(g, alpha), Addend(p)), nan)))
  {
    hide Scale, Coefficient, ExactSum, RoundedSum;
    SignMask(p);
    if IsFinite(g) {
      CoefficientPositive(Magnitude(g));
    }
    if IsFinite(alpha) {
      CoefficientPositive(Magnitude(alpha));
    }
  }

  /** What the correction returns for finite operands. */
  lemma FiniteResult(p: u32, g: u32, alpha: u32, negative: bool, word: u32)
    requires AllFinite(p, g, alpha) && RoundedSum(ExactSum(p, g, alpha), Pow2(149), negative, word)
    requires ExactSum(p, g, alpha) == 0 ==> negative == (Negative(p) && ProductNegative(g, alpha))
    ensures FusedMultiplyAddResult(p, g, alpha, Canonical(word))
  {
    hide ExactSum, Pow2, RoundsTo;
    RoundedIsNumber(ExactSum(p, g, alpha), negative, word);
  }

  /** Widening, summing and correcting finite operands. */
  method FiniteLane(p: u32, g: u32, alpha: u32, nan: u32, high: Double, low: Double) returns (word: u32)
    requires AllFinite(p, g, alpha) && high == Add64(Product(g, alpha), Addend(p))
    requires low.Number? && low.value == ExactSum(p, g, alpha) - Round53(ExactSum(p, g, alpha))
    ensures FusedMultiplyAddResult(p, g, alpha, Canonical(word))
  {
    hide Product, Addend, Round53, FusedMultiplyAddResult, ExactSum, RoundedSum, Representable;
    FiniteOperands(p, g, alpha);
    RoundedSign(ExactSum(p, g, alpha));
    word := MidpointCorrect(high, low, nan, ExactSum(p, g, alpha));
    FiniteResult(p, g, alpha, high.negative, word);
  }

  lemma ProductValid(g: u32, alpha: u32)
    ensures Product(g, alpha).Valid()
  {
    if IsFinite(g) && IsFinite(alpha) {
      ProductExact(g, alpha);
      ProductSign(g, alpha);
    }
    hide Round53, Coefficient;
  }

  /** The scalar kernel, with the same contract as the GPU one up to the payload of a NaN. */
  method FusedMultiplyAddCpu(p: u32, g: u32, alpha: u32, nan: u32) returns (word: u32)
    requires IsNaN(nan)
    ensures FusedMultiplyAddResult(p, g, alpha, Canonical(word))
  {
    hide Product, Addend, Add64, Narrow, FusedMultiplyAddResult, ExactSum, Round53, Representable, Canonical;
    ProductValid(g, alpha);
    var product, addend := Product(g, alpha), Addend(p);
    if !IsFinite(p) || !IsFinite(g) || !IsFinite(alpha) {
      word := Narrow(Add64(product, addend), nan);
      SpecialOperands(p, g, alpha, nan);
    } else {
      var high, low := CompensatedSum(product, addend);
      FiniteOperands(p, g, alpha);
      word := FiniteLane(p, g, alpha, nan, high, low);
    }
  }

  /** Two lanes of compensated sums at a time; the special operands of a lane go through the scalar kernel. */
  method FusedMultiplyAddFour(p: seq<u32>, g: seq<u32>, alpha: seq<u32>, nan: u32) returns (results: seq<u32>)
    requires |p| == |g| == |alpha| == 4 && IsNaN(nan)
    ensures |results| == 4
    ensures forall i :: 0 <= i < 4 ==> FusedMultiplyAddResult(p[i], g[i], alpha[i], Canonical(results[i]))
  {
    hide *;
    results := [0, 0, 0, 0];
    for half := 0 to 2
      invariant |results| == 4
      invariant forall i :: 0 <= i < 2 * half ==> FusedMultiplyAddResult(p[i], g[i], alpha[i], Canonical(results[i]))
    {
      for lane := 0 to 2
        invariant |results| == 4
        invariant forall i :: 0 <= i < 2 * half + lane ==>
                    FusedMultiplyAddResult(p[i], g[i], alpha[i], Canonical(results[i]))
      {
        var index := half * 2 + lane;
        var word := FourthLane(p[index], g[index], alpha[index], nan);
        results := results[index := word];
      }
    }
  }

  method FourthLane(p: u32, g: u32, alpha: u32, nan: u32) returns (word: u32)
    requires IsNaN(nan)
    ensures FusedMultiplyAddResult(p, g, alpha, Canonical(word))
  {
    hide Product, Addend, Add64, Narrow, FusedMultiplyAddResult, ExactSum, Round53, Representable, Canonical;
    ProductValid(g, alpha);
    var high, low := CompensatedSum(Product(g, alpha), Addend(p));
    if !IsFinite(p) || !IsFinite(g) || !IsFinite(alpha) {
      word := FusedMultiplyAddCpu(p, g, alpha, nan);
    } else {
      FiniteOperands(p, g, alpha);
      word := FiniteLane(p, g, alpha, nan, high, low);
    }
  }

  /** Both backends return the same word whenever either returns a number. */
  lemma BackendsAgree(p: u32, g: u32, alpha: u32, cpu: u32, gpu: u32)
    requires FusedMultiplyAddResult(p, g, alpha, Canonical(cpu)) && FusedMultiplyAddResult(p, g, alpha, gpu)
    ensures Canonical(cpu) == gpu
    ensures !IsNaN(cpu) || !IsNaN(gpu) ==> cpu == gpu
  {
    hide ExactSum, RoundedSum, Pow2;
    if AllFinite(p, g, alpha) {
      RoundedSumUnique(ExactSum(p, g, alpha), Pow2(149), Negative(p) && ProductNegative(g, alpha),
                       Canonical(cpu), gpu);
    }
  }
}
