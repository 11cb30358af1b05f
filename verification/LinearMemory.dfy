/**
 * The first-fit allocator of the CPU backend over one growing linear memory.
 * An allocation is a value with an identity; it is released when its identity
 * is no longer outstanding.
 */
module LinearMemory {
  import opened Powers

  const PAGE_BYTES: nat := 65536
  const MAXIMUM_ADDRESS: nat := 0xffff_ffff

  datatype Allocation = Allocation(id: nat, generation: nat, offset: nat, byteLength: nat, reserved: nat)

  datatype Segment = Segment(offset: nat, byteLength: nat)

  function End(s: Segment): nat { s.offset + s.byteLength }

  predicate Holds(s: Segment, a: int) { s.offset <= a < End(s) }

  predicate Owns(al: Allocation, a: int) { al.offset <= a < al.offset + al.reserved }

  /** Positive free segments in address order, never touching each other. */
  predicate Sorted(free: seq<Segment>) {
    && (forall i :: 0 <= i < |free| ==> free[i].byteLength > 0)
    && (forall i, j :: 0 <= i < j < |free| ==> End(free[i]) < free[j].offset)
  }

  predicate InFree(free: seq<Segment>, a: int) { exists i :: 0 <= i < |free| && Holds(free[i], a) }

  predicate InLive(live: map<nat, Allocation>, a: int) { exists id :: id in live && Owns(live[id], a) }

  /** Every byte between base and cursor is free or belongs to exactly one live allocation, and no other byte is. */
  ghost predicate Partition(base: nat, cursor: nat, free: seq<Segment>, live: map<nat, Allocation>) {
    && (forall a: int :: base <= a < cursor <==> InFree(free, a) || InLive(live, a))
    && (forall a: int :: !(InFree(free, a) && InLive(live, a)))
    && (forall a: int, i, j :: i in live && j in live && Owns(live[i], a) && Owns(live[j], a) ==> i == j)
  }

  predicate Fits(free: seq<Segment>, size: nat, i: nat)
    requires i < |free|
  {
    free[i].byteLength >= size
  }

  /** The index at which plain first fit takes a range, or the length of the list. */
  function FirstFit(free: seq<Segment>, size: nat, from: nat): (i: nat)
    requires from <= |free|
    ensures from <= i <= |free|
    ensures forall k :: from <= k < i ==> !Fits(free, size, k)
    ensures i < |free| ==> Fits(free, size, i)
    decreases |free| - from
  {
    if from == |free| || Fits(free, size, from) then from else FirstFit(free, size, from + 1)
  }

  /** The list after taking size bytes from the front of segment i. */
  function Taken(free: seq<Segment>, i: nat, size: nat): seq<Segment>
    requires i < |free| && Fits(free, size, i)
  {
    if free[i].byteLength == size then free[..i] + free[i + 1..]
    else free[i := Segment(free[i].offset + size, free[i].byteLength - size)]
  }

  lemma TakenSorted(free: seq<Segment>, i: nat, size: nat)
    requires i < |free| && Fits(free, size, i) && Sorted(free)
    ensures Sorted(Taken(free, i, size))
  {
  }

  lemma FreeJoin(x: seq<Segment>, y: seq<Segment>, a: int)
    ensures InFree(x + y, a) <==> InFree(x, a) || InFree(y, a)
  {
    if InFree(x, a) {
      var k :| 0 <= k < |x| && Holds(x[k], a);
      assert Holds((x + y)[k], a);
    }
    if InFree(y, a) {
      var k :| 0 <= k < |y| && Holds(y[k], a);
      assert Holds((x + y)[|x| + k], a);
    }
    if InFree(x + y, a) {
      var k :| 0 <= k < |x + y| && Holds((x + y)[k], a);
      assert if k < |x| then Holds(x[k], a) else Holds(y[k - |x|], a);
    }
  }

  lemma FreeThree(x: seq<Segment>, s: Segment, y: seq<Segment>, a: int)
    ensures InFree(x + [s] + y, a) <==> InFree(x, a) || Holds(s, a) || InFree(y, a)
  {
    FreeJoin(x + [s], y, a);
    FreeJoin(x, [s], a);
    assert InFree([s], a) <==> Holds(s, a) by {
      assert [s][0] == s;
    }
    hide InFree, Holds;
  }

  /** No byte of a segment lies in the segments before or after it. */
  lemma FreeApart(free: seq<Segment>, i: nat, a: int)
    requires i < |free| && Sorted(free)
    ensures InFree(free[..i], a) ==> a < free[i].offset
    ensures InFree(free[i + 1..], a) ==> End(free[i]) < a
    ensures InFree(free, a) <==> InFree(free[..i], a) || Holds(free[i], a) || InFree(free[i + 1..], a)
  {
    assert free == free[..i] + [free[i]] + free[i + 1..];
    FreeThree(free[..i], free[i], free[i + 1..], a);
  }

  /** Taking removes exactly the bytes taken. */
  lemma TakenFree(free: seq<Segment>, i: nat, size: nat, a: int)
    requires i < |free| && Fits(free, size, i) && Sorted(free)
    ensures InFree(Taken(free, i, size), a) <==> InFree(free, a) && !(free[i].offset <= a < free[i].offset + size)
  {
    FreeApart(free, i, a);
    if free[i].byteLength == size {
      FreeJoin(free[..i], free[i + 1..], a);
    } else {
      var s := Segment(free[i].offset + size, free[i].byteLength - size);
      assert free[i := s] == free[..i] + [s] + free[i + 1..];
      FreeThree(free[..i], s, free[i + 1..], a);
    }
    hide InFree, Sorted;
  }

  predicate TouchesPrevious(free: seq<Segment>, i: nat, offset: nat)
    requires i <= |free|
  {
    i > 0 && End(free[i - 1]) == offset
  }

  predicate TouchesNext(free: seq<Segment>, i: nat, end: nat)
    requires i <= |free|
  {
    i < |free| && end == free[i].offset
  }

  /** The range joined with the neighbours it touches at index i. */
  function Joined(free: seq<Segment>, i: nat, offset: nat, size: nat): Segment
    requires i <= |free|
  {
    var before := if TouchesPrevious(free, i, offset) then free[i - 1].byteLength else 0;
    var after := if TouchesNext(free, i, offset + size) then free[i].byteLength else 0;
    Segment(if TouchesPrevious(free, i, offset) then free[i - 1].offset else offset, before + size + after)
  }

  /** The list with a range inserted before index i, joined with the neighbours it touches. */
  function Inserted(free: seq<Segment>, i: nat, offset: nat, size: nat): seq<Segment>
    requires i <= |free|
  {
    var lo := if TouchesPrevious(free, i, offset) then i - 1 else i;
    var hi := if TouchesNext(free, i, offset + size) then i + 1 else i;
    free[..lo] + [Joined(free, i, offset, size)] + free[hi..]
  }

  /** The place for a range among sorted segments that it does not overlap. */
  predicate Place(free: seq<Segment>, i: nat, offset: nat, size: nat) {
    && i <= |free|
    && (i > 0 ==> End(free[i - 1]) <= offset)
    && (i < |free| ==> offset + size <= free[i].offset)
  }

  /** A released range back at its place, joined with the neighbours it touches; an empty range adds nothing. */
  ghost predicate PutBack(free: seq<Segment>, free': seq<Segment>, offset: nat, size: nat) {
    if size == 0 then free' == free
    else exists i: nat :: Place(free, i, offset, size) && free' == Inserted(free, i, offset, size)
  }

  lemma SortedThree(x: seq<Segment>, s: Segment, y: seq<Segment>)
    requires Sorted(x) && Sorted(y) && s.byteLength > 0
    requires forall k :: 0 <= k < |x| ==> End(x[k]) < s.offset
    requires forall k :: 0 <= k < |y| ==> End(s) < y[k].offset
    ensures Sorted(x + [s] + y)
  {
  }

  lemma SortedPart(free: seq<Segment>, i: nat, j: nat)
    requires Sorted(free) && i <= j <= |free|
    ensures Sorted(free[i..j])
  {
  }

  /** s is the range joined with the segments of mid, which it touches. */
  predicate Joins(mid: seq<Segment>, s: Segment, offset: nat, size: nat) {
    if mid == [] then s == Segment(offset, size)
    else if |mid| == 1 then
      || (End(mid[0]) == offset && s == Segment(mid[0].offset, mid[0].byteLength + size))
      || (mid[0].offset == offset + size && s == Segment(offset, size + mid[0].byteLength))
    else
      && |mid| == 2 && End(mid[0]) == offset && mid[1].offset == offset + size
      && s == Segment(mid[0].offset, mid[0].byteLength + size + mid[1].byteLength)
  }

  lemma InsertedParts(free: seq<Segment>, i: nat, offset: nat, size: nat)
    returns (left: seq<Segment>, mid: seq<Segment>, s: Segment, right: seq<Segment>)
    requires Place(free, i, offset, size)
    ensures free == left + mid + right && Inserted(free, i, offset, size) == left + [s] + right
    ensures Joins(mid, s, offset, size)
    ensures left == [] || End(left[|left| - 1]) < s.offset || (mid != [] && mid[0].offset == s.offset)
    ensures right == [] || End(s) < right[0].offset || (mid != [] && End(mid[|mid| - 1]) == End(s))
  {
    var lo := if TouchesPrevious(free, i, offset) then i - 1 else i;
    var hi := if TouchesNext(free, i, offset + size) then i + 1 else i;
    left, mid, s, right := free[..lo], free[lo..hi], Joined(free, i, offset, size), free[hi..];
  }

  lemma InsertedSorted(free: seq<Segment>, i: nat, offset: nat, size: nat)
    requires Sorted(free) && Place(free, i, offset, size) && size > 0
    ensures Sorted(Inserted(free, i, offset, size))
  {
    hide *;
    var left, mid, s, right := InsertedParts(free, i, offset, size);
    JoinsPositive(mid, s, offset, size);
    SortedPart(free, 0, |left|);
    SortedPart(free, |left + mid|, |free|);
    assert free[0..|left|] == left && free[|left + mid|..|free|] == right;
    SortedSides(left, mid, s, right);
    SortedThree(left, s, right);
  }

  lemma JoinsPositive(mid: seq<Segment>, s: Segment, offset: nat, size: nat)
    requires Joins(mid, s, offset, size) && size > 0
    ensures s.byteLength > 0
  {
  }

  lemma SortedSides(left: seq<Segment>, mid: seq<Segment>, s: Segment, right: seq<Segment>)
    requires Sorted(left + mid + right)
    requires left == [] || End(left[|left| - 1]) < s.offset || (mid != [] && mid[0].offset == s.offset)
    requires right == [] || End(s) < right[0].offset || (mid != [] && End(mid[|mid| - 1]) == End(s))
    ensures forall k :: 0 <= k < |left| ==> End(left[k]) < s.offset
    ensures forall k :: 0 <= k < |right| ==> End(s) < right[k].offset
  {
    var free := left + mid + right;
    forall k | 0 <= k < |left| ensures End(left[k]) < s.offset {
      assert free[k] == left[k] && free[|left| - 1] == left[|left| - 1];
      assert mid != [] ==> free[|left|] == mid[0];
    }
    forall k | 0 <= k < |right| ensures End(s) < right[k].offset {
      var b := |left| + |mid|;
      assert free[b + k] == right[k] && free[b] == right[0];
      assert mid != [] ==> free[b - 1] == mid[|mid| - 1];
    }
  }

  /** Inserting adds exactly the bytes of the range. */
  lemma InsertedFree(free: seq<Segment>, i: nat, offset: nat, size: nat, a: int)
    requires Place(free, i, offset, size)
    ensures InFree(Inserted(free, i, offset, size), a) <==> InFree(free, a) || offset <= a < offset + size
  {
    hide *;
    var left, mid, s, right := InsertedParts(free, i, offset, size);
    FreeThree(left, s, right, a);
    FreeJoin(left + mid, right, a);
    FreeJoin(left, mid, a);
    JoinsHolds(mid, s, offset, size, a);
  }

  lemma JoinsHolds(mid: seq<Segment>, s: Segment, offset: nat, size: nat, a: int)
    requires Joins(mid, s, offset, size)
    ensures Holds(s, a) || InFree(mid, a) <==> offset <= a < offset + size || InFree(mid, a)
    ensures InFree(mid, a) ==> Holds(s, a)
  {
    if mid != [] {
      assert InFree(mid, a) <==> Holds(mid[0], a) || (|mid| == 2 && Holds(mid[1], a));
    }
  }

  predicate Bounded(free: seq<Segment>, bound: nat) { forall i :: 0 <= i < |free| ==> free[i].byteLength <= bound }

  /** No segment beyond the cached bound fits, so skipping the search changes nothing. */
  lemma BoundSkips(free: seq<Segment>, bound: nat, size: nat)
    requires Bounded(free, bound) && bound < size
    ensures FirstFit(free, size, 0) == |free|
  {
    var _ := FirstFit(free, size, 0);
  }

  lemma FirstFitIs(free: seq<Segment>, size: nat, i: nat)
    requires i < |free| && Fits(free, size, i) && forall k :: 0 <= k < i ==> !Fits(free, size, k)
    ensures FirstFit(free, size, 0) == i
  {
    var j := FirstFit(free, size, 0);
    assert j < |free| ==> Fits(free, size, j);
  }

  /** Where plain first fit puts a range. */
  function FirstFitOffset(free: seq<Segment>, cursor: nat, size: nat): nat {
    var i := FirstFit(free, size, 0);
    if i < |free| then free[i].offset else cursor
  }

  function Total(live: map<nat, Allocation>, n: nat, size: Allocation -> nat): nat {
    if n == 0 then 0 else Total(live, n - 1, size) + (if n - 1 in live then size(live[n - 1]) else 0)
  }

  lemma {:induction false} TotalAdded(live: map<nat, Allocation>, n: nat, id: nat, al: Allocation,
                                      size: Allocation -> nat)
    requires id !in live
    ensures Total(live[id := al], n, size) == Total(live, n, size) + if id < n then size(al) else 0
  {
    if n > 0 {
      TotalAdded(live, n - 1, id, al, size);
    }
  }

  lemma {:induction false} TotalRemoved(live: map<nat, Allocation>, n: nat, id: nat, size: Allocation -> nat)
    requires id in live
    ensures Total(live - {id}, n, size) + (if id < n then size(live[id]) else 0) == Total(live, n, size)
  {
    if n > 0 {
      TotalRemoved(live, n - 1, id, size);
    }
  }

  function Payload(al: Allocation): nat { al.byteLength }

  function Reserved(al: Allocation): nat { al.reserved }

  /** A new allocation at the front of free segment i. */
  lemma PartitionTaken(base: nat, cursor: nat, free: seq<Segment>, live: map<nat, Allocation>, i: nat, id: nat,
                       al: Allocation)
    requires Partition(base, cursor, free, live) && Sorted(free) && i < |free| && Fits(free, al.reserved, i)
    requires id !in live && al.offset == free[i].offset
    ensures Partition(base, cursor, Taken(free, i, al.reserved), live[id := al])
  {
    var free', live' := Taken(free, i, al.reserved), live[id := al];
    hide Taken;
    forall a: int
      ensures InFree(free', a) <==> InFree(free, a) && !Owns(al, a)
      ensures InLive(live', a) <==> InLive(live, a) || Owns(al, a)
      ensures Owns(al, a) ==> InFree(free, a)
    {
      TakenFree(free, i, al.reserved, a);
      LiveAdded(live, id, al, a);
      assert Holds(free[i], a) ==> InFree(free, a);
    }
    hide InFree, Sorted;
    PartitionAdded(base, cursor, cursor, free, live, free', id, al);
  }

  lemma LiveAdded(live: map<nat, Allocation>, id: nat, al: Allocation, a: int)
    requires id !in live
    ensures InLive(live[id := al], a) <==> InLive(live, a) || Owns(al, a)
  {
    var live' := live[id := al];
    if InLive(live, a) {
      var j :| j in live && Owns(live[j], a);
      assert j in live' && live'[j] == live[j];
    }
    if Owns(al, a) {
      assert id in live' && live'[id] == al;
    }
  }

  lemma PartitionAdded(base: nat, cursor: nat, cursor': nat, free: seq<Segment>, live: map<nat, Allocation>,
                       free': seq<Segment>, id: nat, al: Allocation)
    requires Partition(base, cursor, free, live) && id !in live
    requires forall a: int :: InLive(live[id := al], a) <==> InLive(live, a) || Owns(al, a)
    requires forall a: int :: base <= a < cursor' <==> InFree(free', a) || InLive(live, a) || Owns(al, a)
    requires forall a: int :: InFree(free', a) ==> !InLive(live, a) && !Owns(al, a)
    requires forall a: int :: !(InLive(live, a) && Owns(al, a))
    ensures Partition(base, cursor', free', live[id := al])
  {
    var live' := live[id := al];
    forall a: int, i, j | i in live' && j in live' && Owns(live'[i], a) && Owns(live'[j], a) ensures i == j {
      assert i != id ==> InLive(live, a);
      assert j != id ==> InLive(live, a);
    }
    hide InFree;
  }

  /** A new allocation past everything else. */
  lemma PartitionGrown(base: nat, cursor: nat, free: seq<Segment>, live: map<nat, Allocation>, id: nat, al: Allocation)
    requires Partition(base, cursor, free, live) && base <= cursor
    requires id !in live && al.offset == cursor
    ensures Partition(base, cursor + al.reserved, free, live[id := al])
  {
    forall a: int ensures InLive(live[id := al], a) <==> InLive(live, a) || Owns(al, a) {
      LiveAdded(live, id, al, a);
    }
    hide InFree, InLive;
    PartitionAdded(base, cursor, cursor + al.reserved, free, live, free, id, al);
  }

  /** A released range goes back to the free segments. */
  lemma PartitionReleased(base: nat, cursor: nat, free: seq<Segment>, live: map<nat, Allocation>, id: nat,
                          free': seq<Segment>)
    requires Partition(base, cursor, free, live) && id in live
    requires forall a: int :: InFree(free', a) <==> InFree(free, a) || Owns(live[id], a)
    ensures Partition(base, cursor, free', live - {id})
  {
    forall a: int ensures InLive(live - {id}, a) <==> InLive(live, a) && !Owns(live[id], a) {
      LiveRemoved(base, cursor, free, live, id, a);
    }
    hide InFree;
    var live' := live - {id};
    assert forall a: int :: Owns(live[id], a) ==> InLive(live, a);
  }

  lemma LiveRemoved(base: nat, cursor: nat, free: seq<Segment>, live: map<nat, Allocation>, id: nat, a: int)
    requires Partition(base, cursor, free, live) && id in live
    ensures InLive(live - {id}, a) <==> InLive(live, a) && !Owns(live[id], a)
  {
    var live' := live - {id};
    if InLive(live, a) && !Owns(live[id], a) {
      var j :| j in live && Owns(live[j], a);
      assert j in live' && live'[j] == live[j];
    }
    if InLive(live', a) {
      var j :| j in live' && Owns(live'[j], a);
      assert j in live && Owns(live[j], a);
    }
    hide InFree;
  }

  /** The place of a live range among the free segments. */
  lemma PlaceOf(base: nat, cursor: nat, free: seq<Segment>, live: map<nat, Allocation>, id: nat, i: nat)
    requires Partition(base, cursor, free, live) && Sorted(free) && id in live && live[id].reserved > 0 && i <= |free|
    requires i > 0 ==> free[i - 1].offset <= live[id].offset
    requires i < |free| ==> live[id].offset < free[i].offset
    ensures Place(free, i, live[id].offset, live[id].reserved)
  {
    var al := live[id];
    if i > 0 {
      assert Owns(al, al.offset) && InLive(live, al.offset);
      assert Holds(free[i - 1], al.offset) ==> InFree(free, al.offset);
    }
    if i < |free| {
      var a := free[i].offset;
      assert Holds(free[i], a) && InFree(free, a);
      assert Owns(al, a) ==> InLive(live, a);
    }
  }

  function CeilDiv(value: nat, divisor: nat): (q: nat)
    requires divisor > 0
    ensures (q - 1) * divisor < value <= q * divisor
  {
    DivModFacts(value + divisor - 1, divisor);
    var q := (value + divisor - 1) / divisor;
    MulStep(q - 1, divisor);
    q
  }

  /** The shared bytes; growing may be refused, and adds zeroed pages. */
  class WebAssemblyMemory {
    var bytes: seq<int>
    var refusals: seq<bool>

    constructor (pages: nat, refusals: seq<bool>)
      ensures |bytes| == pages * PAGE_BYTES
    {
      bytes := seq(pages * PAGE_BYTES, i => 0);
      this.refusals := refusals;
    }

    method Grow(pages: nat) returns (grown: bool)
      modifies this
      ensures grown ==> |bytes| == |old(bytes)| + pages * PAGE_BYTES && old(bytes) <= bytes
      ensures !grown ==> bytes == old(bytes)
    {
      grown := refusals == [] || !refusals[0];
      refusals := if refusals == [] then [] else refusals[1..];
      if grown {
        bytes := bytes + seq(pages * PAGE_BYTES, i => 0);
      }
    }
  }

  /** The place of a new range, or why there is none. */
  datatype AllocationPlace = Reused(offset: nat) | End(offset: nat) | NoAddress | NoMemory

  datatype AllocationResult = Allocated(allocation: Allocation) | AddressSpaceExhausted | MemoryExhausted

  /** What holds of the allocator between calls. */
  ghost predicate Consistent(base: nat, cursor: nat, free: seq<Segment>, bound: nat, live: map<nat, Allocation>,
                             next: nat, reserved: nat, payload: nat)
  {
    && base <= cursor && Partition(base, cursor, free, live) && Sorted(free) && Bounded(free, bound)
    && (forall id :: id in live ==> id < next && live[id].id == id && live[id].byteLength <= live[id].reserved)
    && reserved == Total(live, next, Reserved) && payload == Total(live, next, Payload)
  }

  function Larger(a: nat, b: nat): nat { if a >= b then a else b }

  lemma InsertedBounded(free: seq<Segment>, i: nat, offset: nat, size: nat, bound: nat)
    requires i <= |free| && Bounded(free, bound)
    ensures Bounded(Inserted(free, i, offset, size), Larger(bound, Joined(free, i, offset, size).byteLength))
  {
    hide Joined;
  }

  lemma TotalsAdded(live: map<nat, Allocation>, next: nat, al: Allocation)
    requires al.id == next && next !in live
    ensures Total(live[next := al], next + 1, Reserved) == Total(live, next, Reserved) + al.reserved
    ensures Total(live[next := al], next + 1, Payload) == Total(live, next, Payload) + al.byteLength
  {
    TotalAdded(live, next, next, al, Reserved);
    TotalAdded(live, next, next, al, Payload);
  }

  lemma ConsistentTaken(base: nat, cursor: nat, free: seq<Segment>, before: nat, free': seq<Segment>,
                        bound: nat, live: map<nat, Allocation>, next: nat, reserved: nat, payload: nat, i: nat,
                        al: Allocation)
    requires Consistent(base, cursor, free, before, live, next, reserved, payload)
    requires i < |free| && Fits(free, al.reserved, i) && al.offset == free[i].offset && al.id == next
    requires al.byteLength <= al.reserved && free' == Taken(free, i, al.reserved) && Sorted(free')
    requires Bounded(free', bound)
    ensures Consistent(base, cursor, free', bound, live[al.id := al], next + 1, reserved + al.reserved,
                       payload + al.byteLength)
    ensures al.reserved > 0 ==> al.offset + al.reserved <= cursor && base < cursor
  {
    PartitionTaken(base, cursor, free, live, i, next, al);
    TotalsAdded(live, next, al);
    if al.reserved > 0 {
      var last := al.offset + al.reserved - 1;
      assert Holds(free[i], last) && InFree(free, last);
    }
    hide Sorted, InFree, InLive, Taken, Total, Bounded;
  }

  lemma ConsistentParts(base: nat, cursor: nat, free: seq<Segment>, bound: nat, live: map<nat, Allocation>, next: nat,
                        reserved: nat, payload: nat)
    requires Consistent(base, cursor, free, bound, live, next, reserved, payload)
    ensures Sorted(free) && Bounded(free, bound) && next !in live
  {
  }

  lemma ConsistentBound(base: nat, cursor: nat, free: seq<Segment>, bound: nat, bound': nat, live: map<nat, Allocation>,
                        next: nat, reserved: nat, payload: nat)
    requires Consistent(base, cursor, free, bound, live, next, reserved, payload) && Bounded(free, bound')
    ensures Consistent(base, cursor, free, bound', live, next, reserved, payload)
  {
  }

  lemma ConsistentGrown(base: nat, cursor: nat, free: seq<Segment>, bound: nat, live: map<nat, Allocation>, next: nat,
                        reserved: nat, payload: nat, al: Allocation)
    requires Consistent(base, cursor, free, bound, live, next, reserved, payload)
    requires al.offset == cursor && al.id == next && al.byteLength <= al.reserved
    ensures Consistent(base, cursor + al.reserved, free, bound, live[al.id := al], next + 1, reserved + al.reserved,
                       payload + al.byteLength)
  {
    PartitionGrown(base, cursor, free, live, next, al);
    TotalsAdded(live, next, al);
    hide Sorted, InFree, InLive, Total, Bounded, Partition;
  }

  lemma ReleasedTotals(base: nat, cursor: nat, free: seq<Segment>, bound: nat, live: map<nat, Allocation>, next: nat,
                       reserved: nat, payload: nat, al: Allocation)
    requires Consistent(base, cursor, free, bound, live, next, reserved, payload)
    requires al.id in live && live[al.id] == al
    ensures reserved >= al.reserved && reserved - al.reserved == Total(live - {al.id}, next, Reserved)
    ensures payload >= al.byteLength && payload - al.byteLength == Total(live - {al.id}, next, Payload)
  {
    TotalRemoved(live, next, al.id, Reserved);
    TotalRemoved(live, next, al.id, Payload);
    hide Sorted, InFree, InLive, Total, Bounded, Partition;
  }

  lemma ConsistentEmpty(base: nat, cursor: nat, free: seq<Segment>, bound: nat, live: map<nat, Allocation>, next: nat,
                        reserved: nat, payload: nat, al: Allocation)
    requires Consistent(base, cursor, free, bound, live, next, reserved, payload)
    requires al.id in live && live[al.id] == al && al.reserved == 0
    requires reserved >= al.reserved && payload >= al.byteLength
    ensures Consistent(base, cursor, free, bound, live - {al.id}, next, reserved - al.reserved, payload - al.byteLength)
  {
    ReleasedTotals(base, cursor, free, bound, live, next, reserved, payload, al);
    PartitionReleased(base, cursor, free, live, al.id, free);
    hide Sorted, InFree, InLive, Total, Bounded, Partition;
  }

  lemma ConsistentReleased(base: nat, cursor: nat, free: seq<Segment>, free': seq<Segment>, bound: nat, bound': nat,
                           live: map<nat, Allocation>, next: nat, reserved: nat, payload: nat, al: Allocation, i: nat)
    requires Consistent(base, cursor, free, bound, live, next, reserved, payload)
    requires al.id in live && live[al.id] == al && al.reserved > 0
    requires reserved >= al.reserved && payload >= al.byteLength
    requires Place(free, i, al.offset, al.reserved) && free' == Inserted(free, i, al.offset, al.reserved)
    requires Bounded(free', bound')
    ensures Consistent(base, cursor, free', bound', live - {al.id}, next, reserved - al.reserved,
                       payload - al.byteLength)
  {
    ReleasedTotals(base, cursor, free, bound, live, next, reserved, payload, al);
    InsertedSorted(free, i, al.offset, al.reserved);
    forall a: int ensures InFree(free', a) <==> InFree(free, a) || Owns(al, a) {
      InsertedFree(free, i, al.offset, al.reserved, a);
    }
    PartitionReleased(base, cursor, free, live, al.id, free');
    hide Sorted, InFree, InLive, Total, Partition, Inserted, Place;
  }

  class LinearMemoryAllocator {
    const memory: WebAssemblyMemory
    const maximumPages: nat
    const alignment: nat
    const generation: nat
    ghost const base: nat
    var cursor: nat
    var freeSegments: seq<Segment>
    var freeSegmentByteBound: nat
    var livePayloadBytes: nat
    var highWaterPayloadBytes: nat
    var liveReservedBytes: nat
    var highWaterReservedBytes: nat
    var next: nat
    var outstanding: map<nat, Allocation>

    ghost predicate Valid()
      reads this, memory
    {
      && alignment > 0
      && Consistent(base, cursor, freeSegments, freeSegmentByteBound, outstanding, next, liveReservedBytes,
                    livePayloadBytes)
      && (cursor == base || cursor <= |memory.bytes|)
      && livePayloadBytes <= highWaterPayloadBytes && liveReservedBytes <= highWaterReservedBytes
      && (forall id :: id in outstanding ==> outstanding[id].generation == generation)
    }

    constructor (memory: WebAssemblyMemory, arenaBase: nat, maximumPages: nat, alignment: nat, generation: nat)
      requires alignment > 0
      ensures Valid() && outstanding == map[] && base == cursor && this.memory == memory && freeSegments == []
    {
      this.memory := memory;
      this.maximumPages := maximumPages;
      this.alignment := alignment;
      this.generation := generation;
      base := CeilDiv(arenaBase, alignment) * alignment;
      cursor := CeilDiv(arenaBase, alignment) * alignment;
      freeSegments := [];
      freeSegmentByteBound := 0;
      livePayloadBytes, highWaterPayloadBytes, liveReservedBytes, highWaterReservedBytes := 0, 0, 0, 0;
      next := 0;
      outstanding := map[];
    }

    function Align(value: nat): (r: nat)
      requires alignment > 0
      ensures value <= r < value + alignment && (value == 0 ==> r == 0)
    {
      MulStep(CeilDiv(value, alignment) - 1, alignment);
      CeilDiv(value, alignment) * alignment
    }

    /** Grows the memory to hold the bytes below an address, or refuses. */
    method EnsureMemory(requiredBytes: nat) returns (ok: bool)
      requires |memory.bytes| % PAGE_BYTES == 0
      modifies memory
      ensures old(memory.bytes) <= memory.bytes && |memory.bytes| % PAGE_BYTES == 0
      ensures ok ==> requiredBytes <= |memory.bytes|
    {
      if requiredBytes <= |memory.bytes| {
        return true;
      }
      var requiredPages := CeilDiv(requiredBytes, PAGE_BYTES);
      var currentPages := |memory.bytes| / PAGE_BYTES;
      if requiredPages > maximumPages {
        return false;
      }
      ok := memory.Grow(requiredPages - currentPages);
    }

    /** Plain first fit over the free list; an unsuccessful search leaves the exact bound. */
    method TakeFree(size: nat) returns (found: bool, offset: nat)
      requires Sorted(freeSegments) && Bounded(freeSegments, freeSegmentByteBound)
      modifies this`freeSegments, this`freeSegmentByteBound
      ensures var i := FirstFit(old(freeSegments), size, 0);
              && found == (i < |old(freeSegments)|)
              && (found ==> offset == old(freeSegments)[i].offset && freeSegments == Taken(old(freeSegments), i, size))
              && (!found ==> freeSegments == old(freeSegments))
      ensures Sorted(freeSegments) && Bounded(freeSegments, freeSegmentByteBound)
    {
      found, offset := false, 0;
      if size > freeSegmentByteBound {
        BoundSkips(freeSegments, freeSegmentByteBound, size);
        return;
      }
      var largest: nat := 0;
      var index := 0;
      while index < |freeSegments|
        invariant 0 <= index <= |freeSegments| && freeSegments == old(freeSegments)
        invariant freeSegmentByteBound == old(freeSegmentByteBound)
        invariant forall k :: 0 <= k < index ==> !Fits(freeSegments, size, k) && freeSegments[k].byteLength <= largest
      {
        if freeSegments[index].byteLength >= size {
          FirstFitIs(freeSegments, size, index);
          TakenSorted(freeSegments, index, size);
          found, offset := true, freeSegments[index].offset;
          freeSegments := Taken(freeSegments, index, size);
          return;
        }
        largest := if largest >= freeSegments[index].byteLength then largest else freeSegments[index].byteLength;
        index := index + 1;
      }
      freeSegmentByteBound := largest;
    }

    /** Where a range goes: into the first free segment that fits, or else to the cursor if memory can be had for it. */
    method TakePlace(reserved: nat) returns (place: AllocationPlace)
      requires Sorted(freeSegments) && Bounded(freeSegments, freeSegmentByteBound) && |memory.bytes| % PAGE_BYTES == 0
      modifies `cursor, `freeSegments, `freeSegmentByteBound, memory
      ensures Sorted(freeSegments) && Bounded(freeSegments, freeSegmentByteBound)
      ensures old(memory.bytes) <= memory.bytes && |memory.bytes| % PAGE_BYTES == 0
      ensures var i := FirstFit(old(freeSegments), reserved, 0);
              && (place.Reused? <==> i < |old(freeSegments)|)
              && (place.Reused? ==>
                    place.offset == old(freeSegments)[i].offset
                    && freeSegments == Taken(old(freeSegments), i, reserved))
      ensures !place.Reused? ==> freeSegments == old(freeSegments)
      ensures !place.Reused? ==> (place.NoAddress? <==> old(cursor) + reserved > MAXIMUM_ADDRESS)
      ensures if place.End? then cursor == place.offset + reserved <= |memory.bytes| && place.offset == old(cursor)
              else cursor == old(cursor)
    {
      hide Taken, Sorted, Bounded, FirstFit, Fits, CeilDiv;
      var found, offset := TakeFree(reserved);
      if found {
        return Reused(offset);
      }
      if cursor + reserved > MAXIMUM_ADDRESS {
        return NoAddress;
      }
      var ok := EnsureMemory(cursor + reserved);
      if !ok {
        return NoMemory;
      }
      place := End(cursor);
      cursor := cursor + reserved;
    }

    /** The range that plain first fit chooses, at the cursor if no free segment fits, or the reason for having none. */
    method Allocate(byteLength: nat) returns (r: AllocationResult)
      requires Valid() && |memory.bytes| % PAGE_BYTES == 0
      modifies this, memory
      ensures Valid() && old(memory.bytes) <= memory.bytes && |memory.bytes| % PAGE_BYTES == 0
      ensures r.AddressSpaceExhausted? <==>
                FirstFit(old(freeSegments), Align(byteLength), 0) == |old(freeSegments)|
                && old(cursor) + Align(byteLength) > MAXIMUM_ADDRESS
      ensures !r.Allocated? ==>
                && outstanding == old(outstanding) && next == old(next)
                && cursor == old(cursor) && freeSegments == old(freeSegments)
      ensures r.Allocated? ==>
                var al := r.allocation;
                && outstanding == old(outstanding)[al.id := al] && al.id !in old(outstanding)
                && al.id == old(next) && next == old(next) + 1
                && al.offset == FirstFitOffset(old(freeSegments), old(cursor), Align(byteLength))
                && al.byteLength == byteLength && al.reserved == Align(byteLength) && al.generation == generation
                && (al.reserved > 0 ==> al.offset + al.reserved <= |memory.bytes|)
                && (if FirstFit(old(freeSegments), al.reserved, 0) < |old(freeSegments)|
                    then cursor == old(cursor)
                         && freeSegments == Taken(old(freeSegments), FirstFit(old(freeSegments), al.reserved, 0),
                                                  al.reserved)
                    else cursor == old(cursor) + al.reserved && freeSegments == old(freeSegments))
    {
      hide Partition, Total, Taken, Sorted, Bounded, FirstFit, Fits, CeilDiv, Align, Consistent;
      var reserved := Align(byteLength);
      ConsistentParts(base, cursor, freeSegments, freeSegmentByteBound, outstanding, next, liveReservedBytes,
                      livePayloadBytes);
      var place := TakePlace(reserved);
      if !place.Reused? {
        ConsistentBound(base, old(cursor), freeSegments, old(freeSegmentByteBound), freeSegmentByteBound, outstanding,
                        next, liveReservedBytes, livePayloadBytes);
      }
      if place.NoAddress? || place.NoMemory? {
        return if place.NoAddress? then AddressSpaceExhausted else MemoryExhausted;
      }
      var al := Allocation(next, generation, place.offset, byteLength, reserved);
      if place.Reused? {
        ConsistentTaken(base, cursor, old(freeSegments), old(freeSegmentByteBound), freeSegments, freeSegmentByteBound,
                        outstanding, next, liveReservedBytes, livePayloadBytes,
                        FirstFit(old(freeSegments), reserved, 0), al);
      } else {
        ConsistentGrown(base, old(cursor), freeSegments, freeSegmentByteBound, outstanding, next,
                        liveReservedBytes, livePayloadBytes, al);
      }
      livePayloadBytes := livePayloadBytes + byteLength;
      liveReservedBytes := liveReservedBytes + reserved;
      highWaterPayloadBytes := Larger(highWaterPayloadBytes, livePayloadBytes);
      highWaterReservedBytes := Larger(highWaterReservedBytes, liveReservedBytes);
      next := next + 1;
      outstanding := outstanding[al.id := al];
      r := Allocated(al);
    }

    /** Returns the range of an outstanding allocation; releasing it again does nothing. */
    method Release(al: Allocation) returns (ok: bool)
      requires Valid() && (al.id in outstanding ==> outstanding[al.id] == al)
      modifies this
      ensures Valid() && next == old(next)
      ensures outstanding == (if ok then old(outstanding) - {al.id} else old(outstanding))
      ensures ok <==> al.id !in old(outstanding) || al.generation == generation
      ensures cursor == old(cursor)
      ensures if ok && al.id in old(outstanding)
              then PutBack(old(freeSegments), freeSegments, al.offset, al.reserved)
              else freeSegments == old(freeSegments)
    {
      hide Place, Inserted;
      if al.id !in outstanding {
        return true;
      }
      if al.generation != generation {
        return false;
      }
      ReleasedTotals(base, cursor, freeSegments, freeSegmentByteBound, outstanding, next, liveReservedBytes,
                     livePayloadBytes, al);
      if al.reserved > 0 {
        InsertFreeSegment(al);
      } else {
        ConsistentEmpty(base, cursor, freeSegments, freeSegmentByteBound, outstanding, next, liveReservedBytes,
                        livePayloadBytes, al);
      }
      hide Consistent, PutBack;
      livePayloadBytes := livePayloadBytes - al.byteLength;
      liveReservedBytes := liveReservedBytes - al.reserved;
      outstanding := outstanding - {al.id};
      return true;
    }

    /** The number of free segments at or below an address, found from the end or by halving. */
    method FindPlace(offset: nat) returns (index: nat)
      ensures index <= |freeSegments|
      ensures index > 0 ==> freeSegments[index - 1].offset <= offset
      ensures index < |freeSegments| ==> offset < freeSegments[index].offset
    {
      index := |freeSegments|;
      if index > 0 && freeSegments[index - 1].offset > offset {
        var low, high := 0, index;
        while low < high
          invariant 0 <= low <= high <= |freeSegments|
          invariant low > 0 ==> freeSegments[low - 1].offset <= offset
          invariant high < |freeSegments| ==> offset < freeSegments[high].offset
        {
          var middle := (low + high) / 2;
          if freeSegments[middle].offset <= offset {
            low := middle + 1;
          } else {
            high := middle;
          }
        }
        index := low;
      }
    }

    /** Inserts a range at its place, joining it with the segments it touches. */
    method JoinSegments(index: nat, offset: nat, byteLength: nat)
      requires index <= |freeSegments| && Bounded(freeSegments, freeSegmentByteBound)
      modifies this`freeSegments, this`freeSegmentByteBound
      ensures freeSegments == Inserted(old(freeSegments), index, offset, byteLength)
      ensures Bounded(freeSegments, freeSegmentByteBound)
    {
      ghost var free := freeSegments;
      InsertedBounded(free, index, offset, byteLength, freeSegmentByteBound);
      hide Bounded;
      var joinsNext := TouchesNext(freeSegments, index, offset + byteLength);
      var segment;
      if TouchesPrevious(freeSegments, index, offset) {
        segment := freeSegments[index - 1];
        segment := segment.(byteLength := segment.byteLength + byteLength);
        if joinsNext {
          segment := segment.(byteLength := segment.byteLength + freeSegments[index].byteLength);
          freeSegments := freeSegments[..index - 1] + [segment] + freeSegments[index + 1..];
        } else {
          freeSegments := freeSegments[index - 1 := segment];
        }
      } else if joinsNext {
        segment := Segment(offset, byteLength + freeSegments[index].byteLength);
        freeSegments := freeSegments[index := segment];
      } else {
        segment := Segment(offset, byteLength);
        freeSegments := freeSegments[..index] + [segment] + freeSegments[index..];
      }
      assert segment == Joined(free, index, offset, byteLength);
      freeSegmentByteBound := Larger(freeSegmentByteBound, segment.byteLength);
    }

    /** Puts a range back among the free segments. */
    method InsertFreeSegment(al: Allocation)
      requires Valid() && al.id in outstanding && outstanding[al.id] == al && al.reserved > 0
      requires liveReservedBytes >= al.reserved && livePayloadBytes >= al.byteLength
      modifies this`freeSegments, this`freeSegmentByteBound
      ensures Consistent(base, cursor, freeSegments, freeSegmentByteBound, outstanding - {al.id}, next,
                         liveReservedBytes - al.reserved, livePayloadBytes - al.byteLength)
      ensures PutBack(old(freeSegments), freeSegments, al.offset, al.reserved)
    {
      hide Partition, Total, Sorted, Bounded, Inserted, Place;
      var index := FindPlace(al.offset);
      PlaceOf(base, cursor, freeSegments, outstanding, al.id, index);
      ghost var before, bound := freeSegments, freeSegmentByteBound;
      JoinSegments(index, al.offset, al.reserved);
      ConsistentReleased(base, cursor, before, freeSegments, bound, freeSegmentByteBound, outstanding, next,
                         liveReservedBytes, livePayloadBytes, al, index);
    }
  }
}
