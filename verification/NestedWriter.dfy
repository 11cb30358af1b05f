/** Writing a flat buffer as nested lists of a given shape, filling lists that their parents hold already. */
module NestedWriter {
  import opened NestedLists
  import opened NestedReader

  /** The item unfolds into this shape, of which any dimension may be zero. */
  predicate Shaped(heap: Heap, item: Item, shape: seq<nat>)
    decreases |shape|
  {
    if shape == [] then item.Number?
    else
      && item.List? && |Items(heap, item.id)| == shape[0]
      && forall i :: 0 <= i < |Items(heap, item.id)| ==> Shaped(heap, Items(heap, item.id)[i], shape[1..])
  }

  /** The same, with every list numbered after the ones that hold it, between lo and hi. */
  predicate ShapedIn(heap: Heap, item: Item, shape: seq<nat>, lo: nat, hi: nat)
    decreases |shape|, 0
  {
    if shape == [] then item.Number?
    else
      && item.List? && lo <= item.id < hi && |Items(heap, item.id)| == shape[0]
      && AllShapedIn(heap, Items(heap, item.id), shape[1..], item.id + 1, hi)
  }

  predicate AllShapedIn(heap: Heap, items: seq<Item>, shape: seq<nat>, lo: nat, hi: nat)
    decreases |shape|, 1
  {
    forall i :: 0 <= i < |items| ==> ShapedIn(heap, items[i], shape, lo, hi)
  }

  predicate SameBetween(before: Heap, after: Heap, lo: nat, hi: nat) {
    forall k :: lo <= k < hi ==> Items(before, k) == Items(after, k)
  }

  /** A finished item depends on its own lists only. */
  lemma {:induction false} ShapedSame(before: Heap, after: Heap, item: Item, shape: seq<nat>, lo: nat, hi: nat,
                                      more: nat)
    requires ShapedIn(before, item, shape, lo, hi) && SameBetween(before, after, lo, hi) && hi <= more
    ensures ShapedIn(after, item, shape, lo, more) && Elements(after, item, shape) == Elements(before, item, shape)
    decreases |shape|, 0
  {
    if shape != [] {
      AllShapedSame(before, after, Items(before, item.id), shape[1..], item.id + 1, hi, more);
    }
  }

  lemma {:induction false} AllShapedSame(before: Heap, after: Heap, items: seq<Item>, shape: seq<nat>, lo: nat,
                                         hi: nat, more: nat)
    requires AllShapedIn(before, items, shape, lo, hi) && SameBetween(before, after, lo, hi) && hi <= more
    ensures AllShapedIn(after, items, shape, lo, more)
    ensures AllElements(after, items, shape) == AllElements(before, items, shape)
    decreases |shape|, 1, |items|
  {
    hide Items, ShapedIn, Elements;
    if items != [] {
      ShapedSame(before, after, items[0], shape, lo, hi, more);
      assert forall i :: 0 <= i < |items[1..]| ==> items[1..][i] == items[i + 1];
      AllShapedSame(before, after, items[1..], shape, lo, hi, more);
      assert forall i :: 0 < i < |items| ==> items[i] == items[1..][i - 1];
    }
  }

  lemma {:induction false} ShapedInIsShaped(heap: Heap, item: Item, shape: seq<nat>, lo: nat, hi: nat)
    requires ShapedIn(heap, item, shape, lo, hi)
    ensures Shaped(heap, item, shape)
    decreases |shape|
  {
    if shape != [] {
      var items := Items(heap, item.id);
      forall i | 0 <= i < |items| ensures Shaped(heap, items[i], shape[1..]) {
        ShapedInIsShaped(heap, items[i], shape[1..], item.id + 1, hi);
      }
    }
  }

  lemma {:induction false} AllElementsMore(heap: Heap, items: seq<Item>, item: Item, shape: seq<nat>)
    ensures AllElements(heap, items + [item], shape) == AllElements(heap, items, shape) + Elements(heap, item, shape)
  {
    hide Elements;
    if items == [] {
      assert items + [item] == [item] && [item][1..] == [];
      assert AllElements(heap, [item], shape) == Elements(heap, item, shape) + AllElements(heap, [], shape);
    } else {
      AllElementsMore(heap, items[1..], item, shape);
      assert (items + [item])[1..] == items[1..] + [item];
    }
  }

  /** The lists being filled, each the last element of the one before, the innermost one last. */
  predicate Partial(heap: Heap, frames: seq<nat>, shape: seq<nat>, size: nat) {
    && frames != [] && |shape| >= 2 && frames[0] < size && |Items(heap, frames[0])| <= shape[0]
    && var items := Items(heap, frames[0]);
       if |frames| == 1 then AllShapedIn(heap, items, shape[1..], frames[0] + 1, size)
       else
         && items != [] && items[|items| - 1] == List(frames[1]) && frames[0] < frames[1]
         && AllShapedIn(heap, items[..|items| - 1], shape[1..], frames[0] + 1, frames[1])
         && Partial(heap, frames[1..], shape[1..], size)
  }

  /** The numbers written so far. */
  function Written(heap: Heap, frames: seq<nat>, shape: seq<nat>): seq<int>
    requires frames != []
  {
    var items := Items(heap, frames[0]);
    if |frames| == 1 || items == [] || shape == [] then AllElements(heap, items, if shape == [] then [] else shape[1..])
    else AllElements(heap, items[..|items| - 1], shape[1..]) + Written(heap, frames[1..], shape[1..])
  }

  function Top(frames: seq<nat>): nat
    requires frames != []
  {
    frames[|frames| - 1]
  }

  lemma {:induction false} PartialTop(heap: Heap, frames: seq<nat>, shape: seq<nat>, size: nat)
    requires Partial(heap, frames, shape, size)
    ensures |frames| + 1 <= |shape| && frames[0] <= Top(frames) < size
    ensures |Items(heap, Top(frames))| <= shape[|frames| - 1]
    ensures |frames| > 1 ==> frames[0] < Top(frames)
  {
    hide Items, AllShapedIn;
    if |frames| > 1 {
      PartialDeeper(heap, frames, shape, size);
      PartialTop(heap, frames[1..], shape[1..], size);
    }
  }

  /** What appending to the innermost list changes. */
  predicate AppendedTo(before: Heap, after: Heap, top: nat, size: nat, item: Item) {
    && (forall k :: 0 <= k < size && k != top ==> Items(after, k) == Items(before, k))
    && Items(after, top) == Items(before, top) + [item]
  }

  /** One more finished element of the innermost list. */
  lemma {:induction false} Appended(before: Heap, after: Heap, frames: seq<nat>, shape: seq<nat>, size: nat,
                                    more: nat, item: Item)
    requires frames != [] && Partial(before, frames, shape, size) && size <= more && |frames| <= |shape|
    requires |Items(before, Top(frames))| < shape[|frames| - 1]
    requires AppendedTo(before, after, Top(frames), size, item)
    requires ShapedIn(after, item, shape[|frames|..], size, more)
    ensures Partial(after, frames, shape, more)
    ensures Written(after, frames, shape) == Written(before, frames, shape) + Elements(after, item, shape[|frames|..])
  {
    hide Partial, Written, ShapedIn, Elements, Items, AppendedTo, AllShapedIn;
    if |frames| == 1 {
      AppendedOne(before, after, frames, shape, size, more, item);
    } else {
      PartialDeeper(before, frames, shape, size);
      PartialTop(before, frames, shape, size);
      PartialTop(before, frames[1..], shape[1..], size);
      assert shape[1..][|frames| - 1..] == shape[|frames|..];
      Appended(before, after, frames[1..], shape[1..], size, more, item);
      AppendedOuter(before, after, frames, shape, size, more, item);
    }
  }

  lemma PartialDeeper(heap: Heap, frames: seq<nat>, shape: seq<nat>, size: nat)
    requires Partial(heap, frames, shape, size) && |frames| > 1
    ensures |shape| >= 2 && Partial(heap, frames[1..], shape[1..], size) && Top(frames[1..]) == Top(frames)
  {
    hide AllShapedIn, Items;
  }

  lemma AppendedOne(before: Heap, after: Heap, frames: seq<nat>, shape: seq<nat>, size: nat, more: nat, item: Item)
    requires Partial(before, frames, shape, size) && size <= more && |frames| == 1 <= |shape|
    requires |Items(before, Top(frames))| < shape[0] && AppendedTo(before, after, Top(frames), size, item)
    requires ShapedIn(after, item, shape[1..], size, more)
    ensures Partial(after, frames, shape, more)
    ensures Written(after, frames, shape) == Written(before, frames, shape) + Elements(after, item, shape[1..])
  {
    var items := Items(before, frames[0]);
    AllShapedSame(before, after, items, shape[1..], frames[0] + 1, size, more);
    AllElementsMore(after, items, item, shape[1..]);
    ShapedWider(after, item, shape[1..], frames[0] + 1, size, more);
    hide Elements, AllElements, ShapedIn;
  }

  lemma AppendedOuter(before: Heap, after: Heap, frames: seq<nat>, shape: seq<nat>, size: nat, more: nat, item: Item)
    requires Partial(before, frames, shape, size) && size <= more && |frames| > 1 && |frames| < |shape|
    requires frames[1] <= Top(frames) < size && AppendedTo(before, after, Top(frames), size, item)
    requires Partial(after, frames[1..], shape[1..], more)
    requires Written(after, frames[1..], shape[1..])
          == Written(before, frames[1..], shape[1..]) + Elements(after, item, shape[|frames|..])
    ensures Partial(after, frames, shape, more)
    ensures Written(after, frames, shape) == Written(before, frames, shape) + Elements(after, item, shape[|frames|..])
  {
    var items := Items(before, frames[0]);
    var rest := items[..|items| - 1];
    assert frames[0] < frames[1];
    AllShapedSame(before, after, rest, shape[1..], frames[0] + 1, frames[1], frames[1]);
    Concatenates(AllElements(after, rest, shape[1..]), Written(before, frames[1..], shape[1..]),
                 Elements(after, item, shape[|frames|..]));
    hide Elements, AllElements, ShapedIn, AllShapedIn;
  }

  lemma Concatenates(a: seq<int>, b: seq<int>, c: seq<int>)
    ensures a + (b + c) == a + b + c
  {
  }

  lemma ShapedWider(heap: Heap, item: Item, shape: seq<nat>, lo: nat, lo': nat, hi: nat)
    requires ShapedIn(heap, item, shape, lo', hi) && lo <= lo'
    ensures ShapedIn(heap, item, shape, lo, hi)
  {
  }

  /** A new list that is about to be filled, as the last element of the innermost one. */
  lemma {:induction false} Opened(before: Heap, after: Heap, frames: seq<nat>, shape: seq<nat>, size: nat, more: nat)
    requires frames != [] && Partial(before, frames, shape, size) && more == size + 1 && |frames| + 1 < |shape|
    requires |Items(before, Top(frames))| < shape[|frames| - 1]
    requires AppendedTo(before, after, Top(frames), size, List(size)) && Items(after, size) == []
    ensures Partial(after, frames + [size], shape, more)
    ensures Written(after, frames + [size], shape) == Written(before, frames, shape)
  {
    hide Partial, Written, ShapedIn, Elements, Items, AppendedTo, AllShapedIn;
    if |frames| == 1 {
      OpenedOne(before, after, frames, shape, size, more);
    } else {
      PartialDeeper(before, frames, shape, size);
      PartialTop(before, frames, shape, size);
      PartialTop(before, frames[1..], shape[1..], size);
      assert (frames + [size])[1..] == frames[1..] + [size];
      Opened(before, after, frames[1..], shape[1..], size, more);
      OpenedOuter(before, after, frames, shape, size, more);
    }
  }

  lemma OpenedOne(before: Heap, after: Heap, frames: seq<nat>, shape: seq<nat>, size: nat, more: nat)
    requires Partial(before, frames, shape, size) && more == size + 1 && |frames| == 1 && 2 < |shape|
    requires |Items(before, Top(frames))| < shape[0]
    requires AppendedTo(before, after, Top(frames), size, List(size)) && Items(after, size) == []
    ensures Partial(after, frames + [size], shape, more)
    ensures Written(after, frames + [size], shape) == Written(before, frames, shape)
  {
    var items := Items(before, frames[0]);
    AllShapedSame(before, after, items, shape[1..], frames[0] + 1, size, size);
    assert (frames + [size])[1..] == [size];
    assert Items(after, frames[0])[..|items|] == items;
    InnermostEmpty(after, size, shape[1..], more);
    hide Elements, ShapedIn, AllShapedIn;
  }

  lemma InnermostEmpty(heap: Heap, id: nat, shape: seq<nat>, size: nat)
    requires Items(heap, id) == [] && |shape| >= 2 && id < size
    ensures Partial(heap, [id], shape, size) && Written(heap, [id], shape) == []
  {
  }

  lemma OpenedOuter(before: Heap, after: Heap, frames: seq<nat>, shape: seq<nat>, size: nat, more: nat)
    requires Partial(before, frames, shape, size) && size <= more && |frames| > 1 && |frames| < |shape|
    requires frames[1] <= Top(frames) < size && AppendedTo(before, after, Top(frames), size, List(size))
    requires Partial(after, frames[1..] + [size], shape[1..], more)
    requires Written(after, frames[1..] + [size], shape[1..]) == Written(before, frames[1..], shape[1..])
    ensures Partial(after, frames + [size], shape, more)
    ensures Written(after, frames + [size], shape) == Written(before, frames, shape)
  {
    var items := Items(before, frames[0]);
    var rest := items[..|items| - 1];
    assert (frames + [size])[1..] == frames[1..] + [size];
    AllShapedSame(before, after, rest, shape[1..], frames[0] + 1, frames[1], frames[1]);
    hide Elements, AllElements, ShapedIn, AllShapedIn;
  }

  /** The innermost list is full: it is a finished element of the one that holds it. */
  lemma {:induction false} Closed(heap: Heap, frames: seq<nat>, shape: seq<nat>, size: nat)
    requires |frames| > 1 && Partial(heap, frames, shape, size) && |frames| <= |shape|
    requires |Items(heap, Top(frames))| == shape[|frames| - 1]
    ensures Partial(heap, frames[..|frames| - 1], shape, size)
    ensures Written(heap, frames[..|frames| - 1], shape) == Written(heap, frames, shape)
  {
    hide Partial, Written, ShapedIn, Elements, Items, AllShapedIn;
    PartialDeeper(heap, frames, shape, size);
    if |frames| == 2 {
      ClosedOne(heap, frames, shape, size);
    } else {
      PartialTop(heap, frames, shape, size);
      assert frames[1..][..|frames| - 2] == frames[..|frames| - 1][1..];
      Closed(heap, frames[1..], shape[1..], size);
      ClosedOuter(heap, frames, shape, size);
    }
  }

  lemma ClosedOne(heap: Heap, frames: seq<nat>, shape: seq<nat>, size: nat)
    requires |frames| == 2 && Partial(heap, frames, shape, size) && |Items(heap, frames[1])| == shape[1]
    ensures Partial(heap, frames[..1], shape, size)
    ensures Written(heap, frames[..1], shape) == Written(heap, frames, shape)
  {
    var items := Items(heap, frames[0]);
    var last := |items| - 1;
    assert items == items[..last] + [List(frames[1])];
    AllShapedSame(heap, heap, items[..last], shape[1..], frames[0] + 1, frames[1], size);
    assert ShapedIn(heap, List(frames[1]), shape[1..], frames[0] + 1, size);
    AllElementsMore(heap, items[..last], List(frames[1]), shape[1..]);
    assert forall i :: 0 <= i < |items| ==> items[i] == if i < last then items[..last][i] else List(frames[1]);
    hide ShapedIn, Items;
  }

  lemma ClosedOuter(heap: Heap, frames: seq<nat>, shape: seq<nat>, size: nat)
    requires |frames| > 2 && Partial(heap, frames, shape, size) && |frames| <= |shape|
    requires Partial(heap, frames[..|frames| - 1][1..], shape[1..], size)
    requires Written(heap, frames[..|frames| - 1][1..], shape[1..]) == Written(heap, frames[1..], shape[1..])
    ensures Partial(heap, frames[..|frames| - 1], shape, size)
    ensures Written(heap, frames[..|frames| - 1], shape) == Written(heap, frames, shape)
  {
    hide Elements, AllElements, ShapedIn, AllShapedIn, Items;
  }

  /** The outermost list is full: everything has been written. */
  lemma Filled(heap: Heap, frames: seq<nat>, shape: seq<nat>, size: nat)
    requires |frames| == 1 && Partial(heap, frames, shape, size) && |Items(heap, frames[0])| == shape[0]
    ensures Shaped(heap, List(frames[0]), shape)
    ensures Elements(heap, List(frames[0]), shape) == Written(heap, frames, shape)
  {
    assert ShapedIn(heap, List(frames[0]), shape, 0, size);
    ShapedInIsShaped(heap, List(frames[0]), shape, 0, size);
    hide AllElements, AllShapedIn, Shaped;
  }

  /** The numbers of a rectangle, or the work of writing one. */
  function Amount(shape: seq<nat>, work: bool): nat {
    if shape == [] then 1
    else if work && |shape| == 1 then 1
    else Times(shape[0], Amount(shape[1..], work)) + if work then 2 else 0
  }

  function Times(a: nat, b: nat): (c: nat)
    ensures c == a * b
  {
    if a == 0 then 0 else Times(a - 1, b) + b
  }

  /** What is still to come for the lists being filled. */
  function Left(heap: Heap, frames: seq<nat>, shape: seq<nat>, work: bool): nat {
    if frames == [] || shape == [] || |Items(heap, frames[0])| > shape[0] then 0
    else
      Times(shape[0] - |Items(heap, frames[0])|, Amount(shape[1..], work)) + (if work then 1 else 0)
      + if |frames| == 1 then 0 else Left(heap, frames[1..], shape[1..], work)
  }

  /** Appending a finished element takes its amount away. */
  lemma {:induction false} LeftAppended(before: Heap, after: Heap, frames: seq<nat>, shape: seq<nat>, size: nat,
                                        item: Item, work: bool)
    requires frames != [] && Partial(before, frames, shape, size) && |frames| <= |shape|
    requires |Items(before, Top(frames))| < shape[|frames| - 1] && AppendedTo(before, after, Top(frames), size, item)
    ensures Left(after, frames, shape, work) + Amount(shape[|frames|..], work) == Left(before, frames, shape, work)
  {
    hide Amount, AllShapedIn, Items;
    PartialTop(before, frames, shape, size);
    if |frames| > 1 {
      PartialDeeper(before, frames, shape, size);
      assert shape[1..][|frames| - 1..] == shape[|frames|..];
      LeftAppended(before, after, frames[1..], shape[1..], size, item, work);
    }
  }

  /** An empty list adds what it will hold. */
  lemma {:induction false} LeftOpened(heap: Heap, frames: seq<nat>, id: nat, shape: seq<nat>, work: bool)
    requires |frames| + 1 < |shape| && Items(heap, id) == []
    requires forall j :: 0 <= j < |frames| ==> |Items(heap, frames[j])| <= shape[j]
    ensures Left(heap, frames + [id], shape, work) + (if work then 1 else 0)
         == Left(heap, frames, shape, work) + Amount(shape[|frames|..], work)
  {
    hide Times, Items;
    if frames != [] {
      assert (frames + [id])[1..] == frames[1..] + [id] && shape[1..][|frames| - 1..] == shape[|frames|..];
      LeftOpened(heap, frames[1..], id, shape[1..], work);
    }
  }

  /** A full list has nothing left. */
  lemma {:induction false} LeftClosed(heap: Heap, frames: seq<nat>, shape: seq<nat>, work: bool)
    requires frames != [] && |frames| <= |shape| && |Items(heap, Top(frames))| == shape[|frames| - 1]
    requires forall j :: 0 <= j < |frames| ==> |Items(heap, frames[j])| <= shape[j]
    ensures Left(heap, frames[..|frames| - 1], shape, work) + (if work then 1 else 0) == Left(heap, frames, shape, work)
  {
    hide Amount, Items;
    if |frames| > 1 {
      assert frames[1..][..|frames| - 2] == frames[..|frames| - 1][1..];
      LeftClosed(heap, frames[1..], shape[1..], work);
    }
  }

  lemma {:induction false} PartialSizes(heap: Heap, frames: seq<nat>, shape: seq<nat>, size: nat)
    requires frames != [] && Partial(heap, frames, shape, size)
    ensures |frames| < |shape| && forall j :: 0 <= j < |frames| ==>
              |Items(heap, frames[j])| <= shape[j] && frames[j] < size
  {
    hide AllShapedIn, Items;
    if |frames| > 1 {
      PartialDeeper(heap, frames, shape, size);
      PartialSizes(heap, frames[1..], shape[1..], size);
      assert forall j :: 0 < j < |frames| ==> frames[j] == frames[1..][j - 1] && shape[j] == shape[1..][j - 1];
    }
  }

  /** A row of numbers. */
  function Row(values: seq<int>): (r: seq<Item>)
    ensures |r| == |values| && Numeric(r) && Numbers(r) == values
  {
    if values == [] then []
    else
      var rest := Row(values[1..]);
      assert forall i :: 0 < i < |values| ==> ([Number(values[0])] + rest)[i] == rest[i - 1];
      [Number(values[0])] + rest
  }

  lemma RowShaped(heap: Heap, id: nat, values: seq<int>, shape: seq<nat>, lo: nat, hi: nat)
    requires |shape| == 1 && |values| == shape[0] && Items(heap, id) == Row(values) && lo <= id < hi
    ensures ShapedIn(heap, List(id), shape, lo, hi) && Shaped(heap, List(id), shape)
    ensures Elements(heap, List(id), shape) == values
  {
    NumbersElements(heap, Row(values), shape[1..]);
  }

  /** What holds while lists are being filled. */
  ghost predicate Writing(heap: Heap, frames: seq<nat>, shape: seq<nat>, size: nat, values: seq<int>, offset: nat) {
    && frames != [] && frames[0] == 0 && Partial(heap, frames, shape, size)
    && offset + Left(heap, frames, shape, false) == |values| && offset <= |values|
    && Written(heap, frames, shape) == values[..offset]
    && forall id :: id in heap ==> id < size
  }

  lemma WritesRow(heap: Heap, after: Heap, frames: seq<nat>, shape: seq<nat>, size: nat, more: nat, values: seq<int>,
                  offset: nat)
    requires Writing(heap, frames, shape, size, values, offset) && more == size + 1
    requires |shape| == |frames| + 1 && |Items(heap, Top(frames))| < shape[|frames| - 1]
    requires offset + shape[|frames|] <= |values|
    requires after == heap[size := Row(values[offset..offset + shape[|frames|]])]
                          [Top(frames) := Items(heap, Top(frames)) + [List(size)]]
    ensures Writing(after, frames, shape, more, values, offset + shape[|frames|])
    ensures Left(after, frames, shape, true) < Left(heap, frames, shape, true)
  {
    hide Partial, Written, Left, AllShapedIn, ShapedIn, Elements, Row;
    var width := shape[|frames|];
    PartialTop(heap, frames, shape, size);
    AmountRow(shape[|frames|..]);
    LeftAppended(heap, after, frames, shape, size, List(size), false);
    LeftAppended(heap, after, frames, shape, size, List(size), true);
    RowShaped(after, size, values[offset..offset + width], shape[|frames|..], size, more);
    Appended(heap, after, frames, shape, size, more, List(size));
    assert values[..offset] + values[offset..offset + width] == values[..offset + width];
  }

  lemma AmountRow(shape: seq<nat>)
    requires |shape| == 1
    ensures Amount(shape, false) == shape[0] && Amount(shape, true) == 1
  {
    assert shape[1..] == [];
  }

  lemma WritesChild(heap: Heap, after: Heap, frames: seq<nat>, shape: seq<nat>, size: nat, more: nat,
                    values: seq<int>, offset: nat)
    requires Writing(heap, frames, shape, size, values, offset) && more == size + 1
    requires |shape| > |frames| + 1 && |Items(heap, Top(frames))| < shape[|frames| - 1]
    requires after == heap[size := []][Top(frames) := Items(heap, Top(frames)) + [List(size)]]
    ensures Writing(after, frames + [size], shape, more, values, offset)
    ensures Left(after, frames + [size], shape, true) < Left(heap, frames, shape, true)
  {
    hide Partial, Written, Left, AllShapedIn, ShapedIn, Elements, Amount;
    PartialTop(heap, frames, shape, size);
    LeftAppended(heap, after, frames, shape, size, List(size), false);
    LeftAppended(heap, after, frames, shape, size, List(size), true);
    Opened(heap, after, frames, shape, size, more);
    PartialSizes(after, frames + [size], shape, more);
    assert forall j :: 0 <= j < |frames| ==> (frames + [size])[j] == frames[j];
    LeftOpened(after, frames, size, shape, false);
    LeftOpened(after, frames, size, shape, true);
  }

  lemma WritesClosed(heap: Heap, frames: seq<nat>, shape: seq<nat>, size: nat, values: seq<int>, offset: nat)
    requires Writing(heap, frames, shape, size, values, offset) && |frames| > 1
    requires |frames| <= |shape| && |Items(heap, Top(frames))| == shape[|frames| - 1]
    ensures Writing(heap, frames[..|frames| - 1], shape, size, values, offset)
    ensures Left(heap, frames[..|frames| - 1], shape, true) < Left(heap, frames, shape, true)
  {
    hide Partial, Written, Left, AllShapedIn, ShapedIn, Elements, Amount;
    PartialSizes(heap, frames, shape, size);
    Closed(heap, frames, shape, size);
    LeftClosed(heap, frames, shape, false);
    LeftClosed(heap, frames, shape, true);
  }

  lemma WritesAll(heap: Heap, frames: seq<nat>, shape: seq<nat>, size: nat, values: seq<int>, offset: nat)
    requires Writing(heap, frames, shape, size, values, offset) && |frames| == 1 <= |shape|
    requires |Items(heap, Top(frames))| == shape[0]
    ensures Shaped(heap, List(0), shape) && Elements(heap, List(0), shape) == values
  {
    Filled(heap, frames, shape, size);
    assert Left(heap, frames, shape, false) == 0;
    assert values[..offset] == values;
    hide Partial, AllShapedIn, Shaped, Elements;
  }

  lemma WritesStart(heap: Heap, shape: seq<nat>, values: seq<int>)
    requires |shape| >= 2 && heap == map[0 := []] && |values| == Amount(shape, false)
    ensures Writing(heap, [0], shape, 1, values, 0)
  {
    InnermostEmpty(heap, 0, shape, 1);
  }

  /** Builds the nesting of the shape around the values. */
  method NestedValues(values: seq<int>, shape: seq<nat>) returns (heap: Heap, result: Item)
    requires |values| == Amount(shape, false)
    ensures Shaped(heap, result, shape) && Elements(heap, result, shape) == values
  {
    if shape == [] {
      return map[], Number(values[0]);
    }
    if |shape| == 1 {
      AmountRow(shape);
      heap := map[0 := Row(values)];
      RowShaped(heap, 0, values, shape, 0, 1);
      return heap, List(0);
    }
    hide *;
    heap := map[0 := []];
    var size: nat, offset: nat, frames := 1, 0, [0];
    WritesStart(heap, shape, values);
    while true
      invariant Writing(heap, frames, shape, size, values, offset) && frames != []
      decreases Left(heap, frames, shape, true)
    {
      WritingParts(heap, frames, shape, size, values, offset);
      var target, depth := frames[|frames| - 1], |frames| - 1;
      var items := Items(heap, target);
      if |items| == shape[depth] {
        if |frames| == 1 {
          WritesAll(heap, frames, shape, size, values, offset);
          return heap, List(0);
        }
        WritesClosed(heap, frames, shape, size, values, offset);
        frames := frames[..|frames| - 1];
      } else if depth == |shape| - 2 {
        var width := shape[depth + 1];
        ghost var before := heap;
        RowFits(heap, frames, shape, size, values, offset);
        heap := heap[size := Row(values[offset..offset + width])][target := items + [List(size)]];
        WritesRow(before, heap, frames, shape, size, size + 1, values, offset);
        size, offset := size + 1, offset + width;
      } else {
        ghost var before := heap;
        heap := heap[size := []][target := items + [List(size)]];
        WritesChild(before, heap, frames, shape, size, size + 1, values, offset);
        frames := frames + [size];
        size := size + 1;
      }
    }
  }

  lemma WritingParts(heap: Heap, frames: seq<nat>, shape: seq<nat>, size: nat, values: seq<int>, offset: nat)
    requires Writing(heap, frames, shape, size, values, offset)
    ensures frames != [] && |frames| < |shape| && Top(frames) == frames[|frames| - 1] && Top(frames) < size
    ensures |Items(heap, Top(frames))| <= shape[|frames| - 1] && offset <= |values|
  {
    PartialTop(heap, frames, shape, size);
    hide Partial, Written, Left, Items;
  }

  lemma RowFits(heap: Heap, frames: seq<nat>, shape: seq<nat>, size: nat, values: seq<int>, offset: nat)
    requires Writing(heap, frames, shape, size, values, offset)
    requires |shape| == |frames| + 1 && |Items(heap, Top(frames))| < shape[|frames| - 1]
    ensures offset + shape[|frames|] <= |values|
  {
    hide Partial, Written, Left, AllShapedIn;
    PartialTop(heap, frames, shape, size);
    AmountRow(shape[|frames|..]);
    LeftAppended(heap, heap[Top(frames) := Items(heap, Top(frames)) + [List(size)]], frames, shape, size, List(size),
                 false);
  }

  /** Only the last dimension may be zero. */
  predicate Readable(shape: seq<nat>) { forall i :: 0 <= i < |shape| - 1 ==> shape[i] > 0 }

  lemma {:induction false} ShapedAll(heap: Heap, items: seq<Item>, shape: seq<nat>)
    requires forall i :: 0 <= i < |items| ==> Rectangular(heap, items[i], shape)
    ensures AllRectangular(heap, items, shape)
  {
    if items != [] {
      assert forall i :: 0 <= i < |items[1..]| ==> items[1..][i] == items[i + 1];
      ShapedAll(heap, items[1..], shape);
    }
  }

  /** What has been written with a readable shape is read back with that shape, and no other. */
  lemma {:induction false} WrittenReadable(heap: Heap, item: Item, shape: seq<nat>)
    requires Shaped(heap, item, shape) && Readable(shape)
    ensures Rectangular(heap, item, shape)
    decreases |shape|
  {
    if shape != [] {
      var items := Items(heap, item.id);
      if |shape| == 1 {
        assert forall i :: 0 <= i < |items| ==> Shaped(heap, items[i], shape[1..]);
      } else {
        forall i | 0 <= i < |items| ensures Rectangular(heap, items[i], shape[1..]) {
          WrittenReadable(heap, items[i], shape[1..]);
        }
        ShapedAll(heap, items, shape[1..]);
      }
    }
  }

  /** Reading gives shapes that writing rebuilds. */
  lemma {:induction false} ReadShaped(heap: Heap, item: Item, shape: seq<nat>)
    requires Rectangular(heap, item, shape)
    ensures Shaped(heap, item, shape) && Readable(shape)
    decreases |shape|
  {
    if shape != [] {
      var items := Items(heap, item.id);
      if |shape| > 1 {
        forall i | 0 <= i < |items| ensures Shaped(heap, items[i], shape[1..]) {
          AllRectangularAt(heap, items, shape[1..], i);
          ReadShaped(heap, items[i], shape[1..]);
        }
        AllRectangularAt(heap, items, shape[1..], 0);
        ReadShaped(heap, items[0], shape[1..]);
        assert forall i :: 1 <= i < |shape| - 1 ==> shape[i] == shape[1..][i - 1];
      }
    }
  }

  /** Values written as nested lists and read again: the same shape comes back exactly if it is readable. */
  method RoundTrip(values: seq<int>, shape: seq<nat>) returns (result: Result)
    requires |values| == Amount(shape, false)
    ensures result == Loaded(values, shape) <==> Readable(shape)
  {
    var heap, item := NestedValues(values, shape);
    result := InputBuffer(heap, item);
    if Readable(shape) {
      WrittenReadable(heap, item, shape);
      ShapeUnique(heap, item, shape, result.shape);
    }
    if result.Loaded? {
      ReadShaped(heap, item, result.shape);
    }
    hide *;
  }
}
