/**
 * The staged reduction: workgroups of 128 elements fold into partial
 * accumulators until one workgroup remains, which rounds.
 */
module SumStages {
  import opened Powers
  import opened Words
  import opened Binary32
  import opened SumAccumulators
  import opened SumRounding

  /** What a run of inputs contributes: the total of the finite ones, and how many of each kind. */
  datatype Summary = Summary(total: int, nans: nat, positives: nat, negatives: nat, count: nat)

  const NOTHING: Summary := Summary(0, 0, 0, 0, 0)

  function Both(a: Summary, b: Summary): Summary {
    Summary(a.total + b.total, a.nans + b.nans, a.positives + b.positives, a.negatives + b.negatives, a.count + b.count)
  }

  function WordSummary(w: u32): Summary {
    if IsNaN(w) then Summary(0, 1, 0, 0, 1)
    else if IsInfinite(w) then if Negative(w) then Summary(0, 0, 0, 1, 1) else Summary(0, 0, 1, 0, 1)
    else Summary(Exact(w), 0, 0, 0, 1)
  }

  function ItemAt(items: seq<Summary>, i: nat): Summary { if i < |items| then items[i] else NOTHING }

  /** The combined contribution of k places from start on; places past the end contribute nothing. */
  function Window(items: seq<Summary>, start: nat, k: nat): Summary {
    if k == 0 then NOTHING else Both(Window(items, start, k - 1), ItemAt(items, start + k - 1))
  }

  /** The accumulator holds exactly this contribution, which is far from overflowing it. */
  predicate Represents(a: Accumulator, s: Summary) {
    && |a.words| == 10
    && Signed(a.words) == s.total
    && a.flags == FlagBits(s.nans > 0, s.positives > 0, s.negatives > 0)
    && 0 - Scale(s.count, 277) <= s.total <= Scale(s.count, 277)
  }

  lemma {:induction false} WindowSplit(items: seq<Summary>, start: nat, k: nat, more: nat)
    ensures Window(items, start, k + more) == Both(Window(items, start, k), Window(items, start + k, more))
  {
    if more > 0 {
      WindowSplit(items, start, k, more - 1);
    }
  }

  lemma {:induction false} WindowPast(items: seq<Summary>, start: nat, k: nat)
    requires start >= |items|
    ensures Window(items, start, k) == NOTHING
  {
    if k > 0 {
      WindowPast(items, start, k - 1);
    }
  }

  lemma WindowCovers(items: seq<Summary>, k: nat)
    requires k >= |items|
    ensures Window(items, 0, k) == Window(items, 0, |items|)
  {
    hide Window;
    WindowSplit(items, 0, |items|, k - |items|);
    WindowPast(items, |items|, k - |items|);
  }

  lemma WindowWithin(items: seq<Summary>, start: nat, k: nat)
    ensures Window(items, start, k).count <= Window(items, 0, |items|).count
  {
    WindowSplit(items, 0, start, k);
    if start + k <= |items| {
      WindowSplit(items, 0, start + k, |items| - start - k);
    } else {
      WindowCovers(items, start + k);
    }
  }

  /** Pairing neighbours keeps the combined contribution. */
  lemma {:induction false} LanePairs(items: seq<Summary>, lanes: seq<Summary>, start: nat, k: nat)
    requires k <= |lanes|
    requires forall l :: 0 <= l < k ==> lanes[l] == Both(ItemAt(items, start + 2 * l), ItemAt(items, start + 2 * l + 1))
    ensures Window(lanes, 0, k) == Window(items, start, 2 * k)
  {
    if k > 0 {
      LanePairs(items, lanes, start, k - 1);
      WindowSplit(items, start, 2 * (k - 1), 2);
      assert Window(items, start + 2 * (k - 1), 2) == lanes[k - 1] by {
        assert Window(items, start + 2 * (k - 1), 1) == ItemAt(items, start + 2 * (k - 1));
      }
    }
  }

  /** So does pairing each place with the one a stride away. */
  lemma {:induction false} StridePairs(before: seq<Summary>, after: seq<Summary>, stride: nat, k: nat)
    requires k <= stride && 2 * stride <= |before| && stride <= |after|
    requires forall l :: 0 <= l < stride ==> after[l] == Both(before[l], before[l + stride])
    ensures Window(after, 0, k) == Both(Window(before, 0, k), Window(before, stride, k))
  {
    hide Window, Both;
    if k == 0 {
      WindowNone(after, 0, k);
      WindowNone(before, 0, k);
      WindowNone(before, stride, k);
      BothNothing(NOTHING);
    } else {
      var l := k - 1;
      StridePairs(before, after, stride, l);
      WindowStep(after, 0, k);
      WindowStep(before, 0, k);
      WindowStep(before, stride, k);
      BothSwap(Window(before, 0, l), Window(before, stride, l), before[l], before[l + stride]);
    }
  }

  lemma WindowNone(items: seq<Summary>, start: nat, k: nat)
    requires k == 0
    ensures Window(items, start, k) == NOTHING
  {
  }

  lemma BothNothing(s: Summary)
    ensures Both(s, NOTHING) == s
  {
  }

  lemma BothSwap(x: Summary, y: Summary, u: Summary, v: Summary)
    ensures Both(Both(x, y), Both(u, v)) == Both(Both(x, u), Both(y, v))
  {
  }

  lemma WindowStep(items: seq<Summary>, start: nat, k: nat)
    requires k > 0
    ensures Window(items, start, k) == Both(Window(items, start, k - 1), ItemAt(items, start + k - 1))
  {
  }

  lemma PairWithin(items: seq<Summary>, i: nat, j: nat, k: nat)
    requires i < j < k <= |items|
    ensures items[i].count + items[j].count <= Window(items, 0, k).count
  {
    WindowSplit(items, 0, i, 1);
    WindowSplit(items, 0, i + 1, j - i - 1);
    WindowSplit(items, 0, j, 1);
    WindowSplit(items, 0, j + 1, k - j - 1);
  }

  lemma OrStep(a: nat, b: nat)
    ensures BitOr(a, b) == (if a % 2 == 1 || b % 2 == 1 then 1 else 0) + 2 * BitOr(a / 2, b / 2)
  {
    if a == 0 && b != 0 {
      assert BitOr(0, b / 2) == b / 2;
    } else if a != 0 && b == 0 {
      assert BitOr(a / 2, 0) == a / 2;
    }
  }

  lemma OrFlags(nan: bool, positive: bool, negative: bool, nan': bool, positive': bool, negative': bool)
    ensures Or(FlagBits(nan, positive, negative), FlagBits(nan', positive', negative'))
         == FlagBits(nan || nan', positive || positive', negative || negative')
  {
    hide BitOr;
    var n, n' := Bit(negative), Bit(negative');
    var p, p' := Bit(positive) + 2 * n, Bit(positive') + 2 * n';
    OrCons(Bit(nan), p, Bit(nan'), p');
    OrCons(Bit(positive), n, Bit(positive'), n');
    OrCons(n, 0, n', 0);
    OrNone();
  }

  function Bit(b: bool): nat { if b then 1 else 0 }

  lemma OrNone()
    ensures BitOr(0, 0) == 0
  {
  }

  lemma OrCons(x: nat, a: nat, y: nat, b: nat)
    requires x <= 1 && y <= 1
    ensures BitOr(x + 2 * a, y + 2 * b) == (if x == 1 || y == 1 then 1 else 0) + 2 * BitOr(a, b)
  {
    OrStep(x + 2 * a, y + 2 * b);
    hide BitOr;
  }

  lemma CountLimit(count: nat)
    requires count <= 0x1_0000_0000
    ensures Scale(count, 277) < Pow2(319)
  {
    hide *;
    Pow2Literals();
    ScaleOrder(count, Pow2(32), 277);
    ScalePow2(32, 277);
    Pow2Strict(309, 319);
  }

  /** Merging adds contributions exactly while their inputs can still be counted. */
  method MergeParts(left: Accumulator, right: Accumulator, ghost l: Summary, ghost r: Summary)
    returns (result: Accumulator)
    requires Represents(left, l) && Represents(right, r) && l.count + r.count <= 0x1_0000_0000
    ensures Represents(result, Both(l, r))
  {
    hide Signed, FlagBits, Or, Scale, Pow2;
    CountLimit(l.count + r.count);
    ScaleSum(l.count, r.count, 277);
    OrFlags(l.nans > 0, l.positives > 0, l.negatives > 0, r.nans > 0, r.positives > 0, r.negatives > 0);
    result := Merge(left, right);
  }

  /** A buffer of partial accumulators, eleven words each. */
  function PartialAt(buffer: seq<u32>, index: nat): Accumulator
    requires 11 * index + 11 <= |buffer|
  {
    Accumulator(buffer[11 * index..11 * index + 10], buffer[11 * index + 10])
  }

  /** A stage's input buffer: raw words in the first stage, partials afterwards. */
  predicate StageInput(buffer: seq<u32>, partialInput: bool, items: seq<Summary>) {
    && |items| < 0x1_0000_0000
    && Window(items, 0, |items|).count <= 0x1_0000_0000
    && if partialInput
       then && |buffer| == 11 * |items| < 0x1_0000_0000
            && forall i :: 0 <= i < |items| ==> Represents(PartialAt(buffer, i), items[i])
       else && |buffer| == |items|
            && forall i :: 0 <= i < |items| ==> items[i] == WordSummary(buffer[i])
  }

  lemma EmptyPart()
    ensures Represents(Accumulator(ZERO_WORDS, 0), NOTHING)
  {
    PrefixZero(10);
    ScalePow2(0, 277);
    hide Scale, Pow2, Prefix;
    SignedOfUnsigned(ZERO_WORDS);
  }

  lemma DecodedPart(bits: u32, a: Accumulator)
    requires |a.words| == 10
    requires a.flags == FlagBits(IsNaN(bits), IsInfinite(bits) && !Negative(bits), IsInfinite(bits) && Negative(bits))
    requires Signed(a.words) == if IsFinite(bits) then Exact(bits) else 0
    requires 0 - Pow2(277) < Signed(a.words) < Pow2(277)
    ensures Represents(a, WordSummary(bits))
  {
    hide Pow2, Scale, Exact, Signed;
    ScalePow2(0, 277);
  }

  method LoadPartial(input: seq<u32>, partialInput: bool, count: u32, index: u32, ghost items: seq<Summary>)
    returns (result: Accumulator)
    requires count == |items| && StageInput(input, partialInput, items)
    ensures Represents(result, ItemAt(items, index))
  {
    hide Pow2, Prefix, Signed, Scale, FlagBits, Window;
    result := Accumulator(ZERO_WORDS, 0);
    EmptyPart();
    if index >= count {
      return;
    }
    if !partialInput {
      result := Decode(input[index]);
      DecodedPart(input[index], result);
      return;
    }
    var words: seq<u32> := ZERO_WORDS;
    var word := 0;
    assert Represents(PartialAt(input, index), items[index]);
    while word < 10
      invariant 0 <= word <= 10 && |words| == 10
      invariant words[..word] == input[11 * index..11 * index + word]
    {
      var place := AddWord(MulWord(index, 11), word);
      assert place == 11 * index + word;
      words := words[word := input[place]];
      word := word + 1;
    }
    assert words == words[..10];
    result := Accumulator(words, input[AddWord(MulWord(index, 11), 10)]);
    assert result == PartialAt(input, index);
  }

  /** One workgroup: two elements a lane, then halving strides. */
  method Workgroup(input: seq<u32>, partialInput: bool, count: u32, group: u32, ghost items: seq<Summary>)
    returns (result: Accumulator)
    requires count == |items| && StageInput(input, partialInput, items)
    requires 128 * group < 0x1_0000_0000 && 128 * group + 128 <= 0x1_0000_0000
    ensures Represents(result, Window(items, 128 * group, 128))
  {
    hide Represents, StageInput;
    var partials := new Accumulator[64](_ => Accumulator(ZERO_WORDS, 0));
    ghost var lanes: seq<Summary> := [];
    var lane := 0;
    while lane < 64
      invariant 0 <= lane <= 64 && |lanes| == lane
      invariant forall l :: 0 <= l < lane ==> Represents(partials[l], lanes[l])
      invariant forall l :: (0 <= l < lane ==>
                  lanes[l] == Both(ItemAt(items, 128 * group + 2 * l), ItemAt(items, 128 * group + 2 * l + 1)))
    {
      var index := AddWord(MulWord(group, 128), MulWord(lane, 2));
      assert index == 128 * group + 2 * lane;
      var left := LoadPartial(input, partialInput, count, index, items);
      var right := LoadPartial(input, partialInput, count, AddWord(index, 1), items);
      PairCount(input, partialInput, items, index);
      partials[lane] := MergeParts(left, right, ItemAt(items, index), ItemAt(items, index + 1));
      lanes := lanes + [Both(ItemAt(items, index), ItemAt(items, index + 1))];
      lane := lane + 1;
    }
    LanePairs(items, lanes, 128 * group, 64);
    GroupCount(input, partialInput, items, 128 * group, 128);
    result := Reduce(partials, lanes);
  }

  lemma GroupCount(input: seq<u32>, partialInput: bool, items: seq<Summary>, start: nat, k: nat)
    requires StageInput(input, partialInput, items)
    ensures Window(items, start, k).count <= 0x1_0000_0000
  {
    hide Window;
    WindowWithin(items, start, k);
  }

  lemma PairCount(input: seq<u32>, partialInput: bool, items: seq<Summary>, index: nat)
    requires StageInput(input, partialInput, items)
    ensures ItemAt(items, index).count + ItemAt(items, index + 1).count <= 0x1_0000_0000
  {
    hide StageInput;
    GroupCount(input, partialInput, items, index, 2);
    assert Window(items, index, 1) == ItemAt(items, index);
    assert Window(items, index, 2) == Both(Window(items, index, 1), ItemAt(items, index + 1));
  }

  method Reduce(partials: array<Accumulator>, ghost lanes: seq<Summary>) returns (result: Accumulator)
    requires partials.Length == 64 == |lanes|
    requires forall l :: 0 <= l < 64 ==> Represents(partials[l], lanes[l])
    requires Window(lanes, 0, 64).count <= 0x1_0000_0000
    modifies partials
    ensures Represents(result, Window(lanes, 0, 64))
  {
    hide Represents, Window;
    var stride: u32 := 32;
    ghost var parts := lanes;
    while stride > 0
      invariant stride in {32, 16, 8, 4, 2, 1, 0}
      invariant |parts| == if stride == 0 then 1 else 2 * stride
      invariant forall l :: 0 <= l < |parts| ==> Represents(partials[l], parts[l])
      invariant Window(parts, 0, |parts|) == Window(lanes, 0, 64)
    {
      parts := Stride(partials, stride, parts);
      stride := Halve(stride);
    }
    result := partials[0];
    OnePart(parts);
  }

  lemma OnePart(parts: seq<Summary>)
    requires |parts| == 1
    ensures Window(parts, 0, 1) == parts[0]
  {
    assert Window(parts, 0, 0) == NOTHING;
  }

  function Halve(stride: u32): (r: u32)
    ensures r == stride / 2
  {
    Pow2Literals();
    Shr(stride, 1)
  }

  /** Between two barriers every lane below the stride takes in the lane a stride above it. */
  method Stride(partials: array<Accumulator>, stride: u32, ghost parts: seq<Summary>)
    returns (ghost after: seq<Summary>)
    requires partials.Length == 64 && 0 < stride <= 32 && |parts| == 2 * stride
    requires forall l :: 0 <= l < |parts| ==> Represents(partials[l], parts[l])
    requires Window(parts, 0, |parts|).count <= 0x1_0000_0000
    modifies partials
    ensures |after| == stride
    ensures forall l :: 0 <= l < stride ==> Represents(partials[l], after[l])
    ensures Window(after, 0, stride) == Window(parts, 0, |parts|)
  {
    hide Represents, Window, Both;
    after := [];
    var lane := 0;
    while lane < stride
      invariant 0 <= lane <= stride && |after| == lane
      invariant forall l :: 0 <= l < lane ==>
                  Represents(partials[l], after[l]) && after[l] == Both(parts[l], parts[l + stride])
      invariant forall l :: lane <= l < |parts| ==> Represents(partials[l], parts[l])
    {
      PairWithin(parts, lane, lane + stride, |parts|);
      partials[lane] := MergeParts(partials[lane], partials[lane + stride], parts[lane], parts[lane + stride]);
      after := after + [Both(parts[lane], parts[lane + stride])];
      lane := lane + 1;
    }
    StridePairs(parts, after, stride, stride);
    WindowSplit(parts, 0, stride, stride);
  }

  /** A stage that is not the last: one partial for each workgroup. */
  method PartialStage(input: seq<u32>, partialInput: bool, count: u32, groups: u32, ghost items: seq<Summary>)
    returns (target: seq<u32>, ghost parts: seq<Summary>)
    requires count == |items| && StageInput(input, partialInput, items)
    requires 1 < groups && 128 * (groups - 1) < count <= 128 * groups
    ensures |parts| == groups && StageInput(target, true, parts)
    ensures Window(parts, 0, |parts|) == Window(items, 0, |items|)
  {
    hide Represents, StageInput, Window;
    target, parts := [], [];
    WindowEmpty(items, parts);
    var group := 0;
    while group < groups
      invariant 0 <= group <= groups && |parts| == group && |target| == 11 * group
      invariant forall i :: 0 <= i < group ==> Represents(PartialAt(target, i), parts[i])
      invariant Window(parts, 0, group) == Window(items, 0, 128 * group)
    {
      var part := Workgroup(input, partialInput, count, group, items);
      RepresentsShape(part, Window(items, 128 * group, 128));
      ghost var before := target;
      target := target + part.words + [part.flags];
      PartialAppended(before, part, target, group);
      WindowAppend(parts, Window(items, 128 * group, 128));
      WindowSplit(items, 0, 128 * group, 128);
      parts := parts + [Window(items, 128 * group, 128)];
      group := group + 1;
    }
    WindowCovers(items, 128 * groups);
    StageOfPartials(input, partialInput, items, target, parts);
  }

  lemma WindowEmpty(items: seq<Summary>, parts: seq<Summary>)
    ensures Window(parts, 0, 0) == Window(items, 0, 0)
  {
  }

  lemma RepresentsShape(a: Accumulator, s: Summary)
    requires Represents(a, s)
    ensures |a.words| == 10
  {
  }

  lemma PartialAppended(before: seq<u32>, part: Accumulator, target: seq<u32>, group: nat)
    requires |before| == 11 * group && |part.words| == 10 && target == before + part.words + [part.flags]
    ensures |target| == 11 * (group + 1) && PartialAt(target, group) == part
    ensures forall i :: 0 <= i < group ==> PartialAt(target, i) == PartialAt(before, i)
  {
    forall i | 0 <= i < group
      ensures PartialAt(target, i) == PartialAt(before, i)
    {
      assert target[11 * i..11 * i + 10] == before[11 * i..11 * i + 10];
    }
    assert target[11 * group..11 * group + 10] == part.words;
  }

  lemma WindowAppend(parts: seq<Summary>, last: Summary)
    ensures Window(parts + [last], 0, |parts| + 1) == Both(Window(parts, 0, |parts|), last)
  {
    WindowLocal(parts, parts + [last], |parts|);
  }

  lemma {:induction false} WindowLocal(a: seq<Summary>, b: seq<Summary>, k: nat)
    requires k <= |a| <= |b| && a == b[..|a|]
    ensures Window(a, 0, k) == Window(b, 0, k)
  {
    if k > 0 {
      WindowLocal(a, b, k - 1);
    }
  }

  lemma StageOfPartials(input: seq<u32>, partialInput: bool, items: seq<Summary>, target: seq<u32>, parts: seq<Summary>)
    requires StageInput(input, partialInput, items)
    requires |target| == 11 * |parts| && 128 * (|parts| - 1) < |items| && |parts| > 1
    requires forall i :: 0 <= i < |parts| ==> Represents(PartialAt(target, i), parts[i])
    requires Window(parts, 0, |parts|) == Window(items, 0, |items|)
    ensures StageInput(target, true, parts)
  {
    hide Represents, Window;
  }

  /** The host's stage loop over one input buffer. */
  method Sum(input: seq<u32>) returns (word: u32)
    requires |input| < 0x1_0000_0000
    ensures SumOf(input, word)
  {
    hide Represents, StageInput, Window, SumResult;
    var current := input;
    var count: u32 := |input|;
    var partialInput := false;
    ghost var items := Summaries(input);
    FirstStage(input);
    WindowMeaning(input, |input|);
    while true
      invariant count == |items| && StageInput(current, partialInput, items)
      invariant Window(items, 0, |items|) == Window(Summaries(input), 0, |input|)
      decreases count
    {
      var groups: u32 := if (count + 127) / 128 > 1 then (count + 127) / 128 else 1;
      if groups == 1 {
        var part := Workgroup(current, partialInput, count, 0, items);
        WindowCovers(items, 128);
        RepresentsFacts(part, Window(items, 0, 128));
        ghost var s := Window(items, 0, 128);
        word := Rounded(part, s.nans > 0, s.positives > 0, s.negatives > 0);
        return;
      }
      current, items := PartialStage(current, partialInput, count, groups, items);
      count := groups;
      partialInput := true;
    }
  }

  lemma RepresentsFacts(a: Accumulator, s: Summary)
    requires Represents(a, s)
    ensures |a.words| == 10 && Signed(a.words) == s.total
    ensures a.flags == FlagBits(s.nans > 0, s.positives > 0, s.negatives > 0)
  {
  }

  function Summaries(input: seq<u32>): (items: seq<Summary>)
    ensures |items| == |input|
    ensures forall i :: 0 <= i < |input| ==> items[i] == WordSummary(input[i])
  {
    seq(|input|, i requires 0 <= i < |input| => WordSummary(input[i]))
  }

  lemma FirstStage(input: seq<u32>)
    requires |input| < 0x1_0000_0000
    ensures StageInput(input, false, Summaries(input))
  {
    CountOfWords(input, |input|);
    hide WordSummary;
  }

  lemma {:induction false} CountOfWords(input: seq<u32>, k: nat)
    requires k <= |input|
    ensures Window(Summaries(input), 0, k).count == k
  {
    if k > 0 {
      hide Exact;
      CountOfWords(input, k - 1);
    }
  }

  /** The exact sum of the finite words. */
  function ExactTotal(input: seq<u32>, k: nat): int
    requires k <= |input|
  {
    if k == 0 then 0 else ExactTotal(input, k - 1) + if IsFinite(input[k - 1]) then Exact(input[k - 1]) else 0
  }

  predicate HasNaN(input: seq<u32>) { exists w :: w in input && IsNaN(w) }

  predicate HasInfinity(input: seq<u32>, negative: bool) {
    exists w :: w in input && IsInfinite(w) && Negative(w) == negative
  }

  /** word is the sum of the input accumulated exactly: a special result, or one rounding. */
  predicate SumOf(input: seq<u32>, word: u32) {
    SumResult(ExactTotal(input, |input|), HasNaN(input), HasInfinity(input, false), HasInfinity(input, true), word)
  }

  lemma WindowMeaning(input: seq<u32>, k: nat)
    requires k == |input|
    ensures var s := Window(Summaries(input), 0, k);
            && s.total == ExactTotal(input, k)
            && (s.nans > 0 <==> HasNaN(input))
            && (s.positives > 0 <==> HasInfinity(input, false))
            && (s.negatives > 0 <==> HasInfinity(input, true))
  {
    PrefixMeaning(input, k);
    assert input[..k] == input;
  }

  lemma {:induction false} PrefixMeaning(input: seq<u32>, k: nat)
    requires k <= |input|
    ensures var s := Window(Summaries(input), 0, k);
            && s.total == ExactTotal(input, k)
            && (s.nans > 0 <==> HasNaN(input[..k]))
            && (s.positives > 0 <==> HasInfinity(input[..k], false))
            && (s.negatives > 0 <==> HasInfinity(input[..k], true))
  {
    hide Exact, IsNaN, IsInfinite, Negative;
    if k == 0 {
      WindowNone(Summaries(input), 0, k);
    } else {
      PrefixMeaning(input, k - 1);
      WindowStep(Summaries(input), 0, k);
      hide Window;
      assert input[..k] == input[..k - 1] + [input[k - 1]];
      WordKinds(input[k - 1]);
    }
  }

  lemma WordKinds(w: u32)
    ensures var s := WordSummary(w);
            && s.total == (if IsFinite(w) then Exact(w) else 0)
            && (s.nans > 0 <==> IsNaN(w))
            && (s.positives > 0 <==> IsInfinite(w) && !Negative(w))
            && (s.negatives > 0 <==> IsInfinite(w) && Negative(w))
  {
    hide Exact;
  }

  function Without(input: seq<u32>, i: nat): seq<u32>
    requires i < |input|
  {
    input[..i] + input[i + 1..]
  }

  /** Taking one word out takes its value out of the total, wherever it stood. */
  lemma {:induction false} TotalWithout(input: seq<u32>, i: nat)
    requires i < |input|
    ensures var rest := Without(input, i);
            ExactTotal(input, |input|)
            == ExactTotal(rest, |rest|) + if IsFinite(input[i]) then Exact(input[i]) else 0
    decreases |input|
  {
    hide Exact;
    var rest := Without(input, i);
    var last := |input| - 1;
    if i == last {
      TotalLocal(input, rest, last);
    } else {
      TotalWithout(input[..last], i);
      var shorter := Without(input[..last], i);
      TotalLocal(input, input[..last], last);
      assert shorter == rest[..last - 1] && rest[last - 1] == input[last];
      TotalLocal(rest, shorter, last - 1);
    }
  }

  lemma {:induction false} TotalLocal(a: seq<u32>, b: seq<u32>, k: nat)
    requires k <= |a| && k <= |b| && a[..k] == b[..k]
    ensures ExactTotal(a, k) == ExactTotal(b, k)
  {
    if k > 0 {
      hide Exact;
      assert a[..k - 1] == a[..k][..k - 1] && b[..k - 1] == b[..k][..k - 1];
      assert a[k - 1] == a[..k][k - 1] && b[k - 1] == b[..k][k - 1];
      TotalLocal(a, b, k - 1);
    }
  }

  lemma {:induction false} TotalPermutes(a: seq<u32>, b: seq<u32>)
    requires multiset(a) == multiset(b)
    ensures ExactTotal(a, |a|) == ExactTotal(b, |b|)
    decreases |a|
  {
    hide Exact;
    if |a| == 0 {
      assert |multiset(b)| == 0;
    } else {
      assert a[0] in multiset(b);
      var i :| 0 <= i < |b| && b[i] == a[0];
      var restA, restB := Without(a, 0), Without(b, i);
      WithoutCounts(a, 0);
      WithoutCounts(b, i);
      TotalWithout(a, 0);
      TotalWithout(b, i);
      hide ExactTotal;
      TotalPermutes(restA, restB);
    }
  }

  lemma WithoutCounts(input: seq<u32>, i: nat)
    requires i < |input|
    ensures multiset(Without(input, i)) == multiset(input) - multiset{input[i]}
    ensures |Without(input, i)| == |input| - 1
  {
    assert input == input[..i] + [input[i]] + input[i + 1..];
  }

  /** The result depends on which words are summed, not on their order or grouping. */
  lemma SumPermutes(a: seq<u32>, b: seq<u32>, word: u32, word': u32)
    requires multiset(a) == multiset(b) && SumOf(a, word) && SumOf(b, word')
    ensures word == word'
  {
    hide Exact, Nearest;
    TotalPermutes(a, b);
    assert forall w :: w in a <==> w in multiset(a);
    assert forall w :: w in b <==> w in multiset(b);
    assert HasNaN(a) == HasNaN(b);
    assert HasInfinity(a, false) == HasInfinity(b, false);
    assert HasInfinity(a, true) == HasInfinity(b, true);
    var total := ExactTotal(a, |a|);
    if RoundedSum(total, 1, false, word) && RoundedSum(total, 1, false, word') {
      RoundedSumUnique(total, 1, false, word, word');
    }
  }
}
