/** Reading nested lists into a flat buffer and a shape, with an explicit stack of iterators. */
module NestedReader {
  import opened Options
  import opened NestedLists

  /** A list whose elements are being visited: those still to come, and its identity. */
  datatype Frame = Frame(rest: seq<Item>, id: nat)

  datatype Result = Loaded(buffer: seq<int>, shape: seq<nat>) | Cycle | UnevenDepth | Ragged | NotNumeric

  predicate RestRectangular(heap: Heap, frames: seq<Frame>, shape: seq<nat>)
    requires |frames| <= |shape|
  {
    frames == []
    || (AllRectangular(heap, frames[|frames| - 1].rest, shape[|frames|..])
        && RestRectangular(heap, frames[..|frames| - 1], shape))
  }

  function RestElements(heap: Heap, frames: seq<Frame>, shape: seq<nat>): seq<int>
    requires |frames| <= |shape|
  {
    if frames == [] then []
    else
      AllElements(heap, frames[|frames| - 1].rest, shape[|frames|..])
      + RestElements(heap, frames[..|frames| - 1], shape)
  }

  /**
   * Where a traversal stands: the stack, the item to be visited next if any, the known
   * dimensions, and whether they are all known.
   */
  datatype State = State(frames: seq<Frame>, value: Option<Item>, shape: seq<nat>, terminal: Option<nat>,
                         buffer: seq<int>)

  /** The shape is still possible: it agrees with what is known, and everything still to come has its part of it. */
  predicate Open(heap: Heap, s: State, shape: seq<nat>) {
    && (if s.terminal.None? then s.shape <= shape else s.shape == shape)
    && |s.frames| <= |shape| && RestRectangular(heap, s.frames, shape)
    && (s.value.Some? ==> |s.frames| < |shape| && Rectangular(heap, s.value.value, shape[|s.frames|..]))
  }

  function ValueElements(heap: Heap, s: State, shape: seq<nat>): seq<int>
    requires |s.frames| <= |shape|
  {
    if s.value.Some? then Elements(heap, s.value.value, shape[|s.frames|..]) else []
  }

  /** The lists on the stack have their parts of the shape too. */
  predicate Ancestors(heap: Heap, frames: seq<Frame>, shape: seq<nat>) {
    forall j :: 0 <= j < |frames| ==> j < |shape| && Rectangular(heap, List(frames[j].id), shape[j..])
  }

  /**
   * The data has the shape exactly if it is still possible, and then its numbers are the ones
   * read and the ones to come.
   */
  predicate FaithfulTo(heap: Heap, data: Item, s: State, shape: seq<nat>) {
    && (Rectangular(heap, data, shape) <==> Open(heap, s, shape))
    && (Open(heap, s, shape) ==>
          && Elements(heap, data, shape)
            == s.buffer + ValueElements(heap, s, shape) + RestElements(heap, s.frames, shape)
          && Ancestors(heap, s.frames, shape))
  }

  ghost predicate Faithful(heap: Heap, data: Item, s: State) {
    forall shape: seq<nat> :: FaithfulTo(heap, data, s, shape)
  }

  /** Each list contains the next one on the stack, or the value to be visited. */
  predicate Linked(heap: Heap, s: State) {
    && (forall j :: 0 < j < |s.frames| ==> List(s.frames[j].id) in Items(heap, s.frames[j - 1].id))
    && (forall j :: 0 <= j < |s.frames| ==>
          forall i :: 0 <= i < |s.frames[j].rest| ==> s.frames[j].rest[i] in Items(heap, s.frames[j].id))
    && (s.frames != [] && s.value.Some? ==> s.value.value in Items(heap, s.frames[|s.frames| - 1].id))
  }

  predicate DistinctIds(frames: seq<Frame>) { forall i, j :: 0 <= i < j < |frames| ==> frames[i].id != frames[j].id }

  function Ids(frames: seq<Frame>): set<nat> { set f | f in frames :: f.id }

  /** What is known of the dimensions. */
  predicate Sized(s: State) {
    match s.terminal
    case None => |s.shape| == |s.frames|
    case Some(t) => t == |s.shape| && |s.frames| <= t && (s.value.None? ==> |s.frames| < t)
  }

  /** The first list seen at a depth tells the dimension. */
  lemma Extend(heap: Heap, data: Item, s: State, id: nat, shape: seq<nat>)
    requires FaithfulTo(heap, data, s, shape) && s.value == Some(List(id)) && s.terminal.None?
    requires |s.shape| == |s.frames|
    ensures FaithfulTo(heap, data, s.(shape := s.shape + [|Items(heap, id)|]), shape)
  {
    hide Elements, RestElements, RestRectangular, Ancestors, Rectangular, Items;
    if |s.frames| < |shape| && Rectangular(heap, List(id), shape[|s.frames|..]) {
      FirstDimension(heap, id, shape[|s.frames|..]);
      PrefixGrows(s.shape, shape, |Items(heap, id)|);
    }
  }

  lemma FirstDimension(heap: Heap, id: nat, shape: seq<nat>)
    requires Rectangular(heap, List(id), shape) && shape != []
    ensures shape[0] == |Items(heap, id)|
  {
  }

  lemma PrefixGrows(known: seq<nat>, shape: seq<nat>, dimension: nat)
    requires |known| < |shape| && shape[|known|..][0] == dimension
    ensures known <= shape <==> known + [dimension] <= shape
  {
  }

  /** Later lists have to agree. */
  lemma Mismatch(heap: Heap, s: State, id: nat, shape: seq<nat>)
    requires s.value == Some(List(id)) && |s.frames| < |s.shape| && s.shape[|s.frames|] != |Items(heap, id)|
    ensures !Open(heap, s, shape)
  {
    if |s.frames| < |shape| {
      assert shape[|s.frames|..][0] == shape[|s.frames|];
    }
    hide RestRectangular;
  }

  /** Visiting a branch: its first element next, the others afterwards. */
  lemma Enter(heap: Heap, data: Item, s: State, id: nat, shape: seq<nat>)
    requires FaithfulTo(heap, data, s, shape) && s.value == Some(List(id)) && IsBranch(Items(heap, id))
    requires |s.frames| < |s.shape| && s.shape[|s.frames|] == |Items(heap, id)|
    ensures var items := Items(heap, id);
            FaithfulTo(heap, data, s.(frames := s.frames + [Frame(items[1..], id)], value := Some(items[0])), shape)
  {
    hide Ancestors, Rectangular, AllRectangular, Elements, RestElements, RestRectangular, Open, Items;
    var next := s.(frames := s.frames + [Frame(Items(heap, id)[1..], id)], value := Some(Items(heap, id)[0]));
    EnterOpen(heap, s, next, id, shape);
    if Open(heap, s, shape) {
      EnterElements(heap, s, next, id, shape);
      EnterAncestors(heap, s.frames, next.frames, shape);
    }
  }

  lemma EnterOpen(heap: Heap, s: State, next: State, id: nat, shape: seq<nat>)
    requires s.value == Some(List(id)) && IsBranch(Items(heap, id))
    requires |s.frames| < |s.shape| && s.shape[|s.frames|] == |Items(heap, id)|
    requires next == s.(frames := s.frames + [Frame(Items(heap, id)[1..], id)], value := Some(Items(heap, id)[0]))
    ensures Open(heap, s, shape) <==> Open(heap, next, shape)
    ensures Open(heap, s, shape) ==> |s.frames| < |shape| && Rectangular(heap, List(id), shape[|s.frames|..])
  {
    var d, items := |s.frames|, Items(heap, id);
    assert next.frames[..d] == s.frames;
    if d < |shape| {
      assert shape[d..][0] == shape[d] && (d + 1 <= |shape| ==> shape[d..][1..] == shape[d + 1..]);
      if |shape| > d + 1 {
        assert AllRectangular(heap, items, shape[d + 1..]) <==>
          Rectangular(heap, items[0], shape[d + 1..]) && AllRectangular(heap, items[1..], shape[d + 1..]);
      }
    }
    hide Items;
  }

  lemma EnterElements(heap: Heap, s: State, next: State, id: nat, shape: seq<nat>)
    requires s.value == Some(List(id)) && IsBranch(Items(heap, id)) && |s.frames| < |shape|
    requires next == s.(frames := s.frames + [Frame(Items(heap, id)[1..], id)], value := Some(Items(heap, id)[0]))
    ensures s.buffer + ValueElements(heap, s, shape) + RestElements(heap, s.frames, shape)
         == next.buffer + ValueElements(heap, next, shape) + RestElements(heap, next.frames, shape)
  {
    hide AllElements, Elements, RestElements, Items;
    var d, items := |s.frames|, Items(heap, id);
    assert shape[d..][1..] == shape[d + 1..];
    BranchElements(heap, id, shape[d..]);
    RestPushed(heap, s.frames, Frame(items[1..], id), shape);
    Concatenated(s.buffer, Elements(heap, items[0], shape[d + 1..]), AllElements(heap, items[1..], shape[d + 1..]),
                 RestElements(heap, s.frames, shape));
  }

  lemma BranchElements(heap: Heap, id: nat, shape: seq<nat>)
    requires shape != [] && Items(heap, id) != []
    ensures Elements(heap, List(id), shape)
         == Elements(heap, Items(heap, id)[0], shape[1..]) + AllElements(heap, Items(heap, id)[1..], shape[1..])
  {
    hide Items;
  }

  lemma RestPushed(heap: Heap, frames: seq<Frame>, frame: Frame, shape: seq<nat>)
    requires |frames| < |shape|
    ensures RestElements(heap, frames + [frame], shape)
         == AllElements(heap, frame.rest, shape[|frames| + 1..]) + RestElements(heap, frames, shape)
  {
    assert (frames + [frame])[..|frames|] == frames;
    hide AllElements;
  }

  lemma Concatenated(a: seq<int>, b: seq<int>, c: seq<int>, d: seq<int>)
    ensures a + (b + c) + d == a + b + (c + d)
  {
  }

  lemma EnterAncestors(heap: Heap, frames: seq<Frame>, more: seq<Frame>, shape: seq<nat>)
    requires Ancestors(heap, frames, shape) && |frames| < |shape| && |more| == |frames| + 1
    requires more[..|frames|] == frames
    requires Rectangular(heap, List(more[|frames|].id), shape[|frames|..])
    ensures Ancestors(heap, more, shape)
  {
    hide Rectangular;
  }

  /** A list that ends the shape: its numbers are read, and all dimensions are known. */
  lemma Leaf(heap: Heap, data: Item, s: State, id: nat, shape: seq<nat>, values: seq<int>)
    requires FaithfulTo(heap, data, s, shape) && s.value == Some(List(id)) && !IsBranch(Items(heap, id))
    requires |s.shape| == |s.frames| + 1 && s.shape[|s.frames|] == |Items(heap, id)| && Numeric(Items(heap, id))
    requires values == Numbers(Items(heap, id))
    ensures FaithfulTo(heap, data,
                       s.(value := None, terminal := Some(|s.frames| + 1), buffer := s.buffer + values), shape)
  {
    var next := s.(value := None, terminal := Some(|s.frames| + 1), buffer := s.buffer + values);
    LeafOpen(heap, s, next, id, shape);
    if Open(heap, s, shape) {
      NumbersElements(heap, Items(heap, id), shape[|s.frames|..][1..]);
    }
    hide Open, Rectangular, RestRectangular, RestElements, AllElements, Items;
  }

  lemma LeafOpen(heap: Heap, s: State, next: State, id: nat, shape: seq<nat>)
    requires s.value == Some(List(id)) && !IsBranch(Items(heap, id))
    requires |s.shape| == |s.frames| + 1 && s.shape[|s.frames|] == |Items(heap, id)| && Numeric(Items(heap, id))
    requires next.frames == s.frames && next.value.None? && next.terminal.Some? && next.shape == s.shape
    ensures Open(heap, s, shape) <==> Open(heap, next, shape)
    ensures Open(heap, s, shape) ==> |shape| == |s.frames| + 1 && |shape[|s.frames|..][1..]| == 0
  {
    var d := |s.frames|;
    if Open(heap, s, shape) {
      BranchTells(heap, List(id), shape[d..]);
      assert s.shape == shape;
    }
    if d < |shape| {
      assert shape[d..][0] == shape[d];
    }
    hide RestRectangular, Items;
  }

  /** The values of a numeric row. */
  function Numbers(items: seq<Item>): seq<int> {
    if items == [] then [] else (if items[0].Number? then [items[0].value] else []) + Numbers(items[1..])
  }

  lemma {:induction false} NumbersElements(heap: Heap, items: seq<Item>, shape: seq<nat>)
    requires shape == []
    ensures AllElements(heap, items, shape) == Numbers(items)
  {
    if items != [] {
      NumbersElements(heap, items[1..], shape);
    }
  }

  /** A row that ends the shape but holds something else than numbers. */
  lemma NotNumericNone(heap: Heap, s: State, id: nat, shape: seq<nat>)
    requires s.value == Some(List(id)) && !IsBranch(Items(heap, id)) && !Numeric(Items(heap, id))
    ensures !Open(heap, s, shape)
  {
    if Open(heap, s, shape) {
      BranchTells(heap, List(id), shape[|s.frames|..]);
    }
    hide RestRectangular, Items;
  }

  /** The shape has ended before, at another depth. */
  lemma UnevenLeaf(heap: Heap, s: State, id: nat, shape: seq<nat>)
    requires s.value == Some(List(id)) && !IsBranch(Items(heap, id))
    requires s.terminal.Some? && |s.shape| != |s.frames| + 1
    ensures !Open(heap, s, shape)
  {
    if Open(heap, s, shape) {
      BranchTells(heap, List(id), shape[|s.frames|..]);
    }
    hide RestRectangular, Items;
  }

  lemma TooDeep(heap: Heap, s: State, shape: seq<nat>)
    requires s.value.Some? && s.terminal.Some? && |s.shape| <= |s.frames|
    ensures !Open(heap, s, shape)
  {
    hide RestRectangular, Rectangular;
  }

  lemma NotList(heap: Heap, s: State, shape: seq<nat>)
    requires s.value.Some? && !s.value.value.List?
    ensures !Open(heap, s, shape)
  {
    hide RestRectangular;
  }

  /** A list that is on the stack already would have two shapes. */
  lemma CycleNone(heap: Heap, data: Item, s: State, id: nat, j: nat, shape: seq<nat>)
    requires FaithfulTo(heap, data, s, shape) && s.value == Some(List(id)) && j < |s.frames| && s.frames[j].id == id
    ensures !Open(heap, s, shape)
  {
    if Open(heap, s, shape) {
      ShapeUnique(heap, List(id), shape[j..], shape[|s.frames|..]);
    }
    hide RestRectangular, Rectangular, RestElements;
  }

  /** The next element of the innermost list. */
  lemma Next(heap: Heap, data: Item, s: State, shape: seq<nat>)
    requires FaithfulTo(heap, data, s, shape) && s.value.None? && s.frames != []
    requires s.frames[|s.frames| - 1].rest != [] && s.terminal.Some? && |s.frames| < |s.shape|
    ensures var last := |s.frames| - 1;
            var top := s.frames[last];
            FaithfulTo(heap, data, s.(frames := s.frames[last := top.(rest := top.rest[1..])],
                                      value := Some(top.rest[0])), shape)
  {
    var last := |s.frames| - 1;
    var top := s.frames[last];
    var next := s.(frames := s.frames[last := top.(rest := top.rest[1..])], value := Some(top.rest[0]));
    assert next.frames[..last] == s.frames[..last];
    if |s.frames| <= |shape| {
      NextElements(heap, s, next, shape);
    }
    hide Elements, AllElements, RestElements, Rectangular;
  }

  lemma NextElements(heap: Heap, s: State, next: State, shape: seq<nat>)
    requires s.value.None? && s.frames != [] && s.frames[|s.frames| - 1].rest != [] && |s.frames| <= |shape|
    requires var last := |s.frames| - 1;
             var top := s.frames[last];
             next == s.(frames := s.frames[last := top.(rest := top.rest[1..])], value := Some(top.rest[0]))
    ensures s.buffer + ValueElements(heap, s, shape) + RestElements(heap, s.frames, shape)
         == next.buffer + ValueElements(heap, next, shape) + RestElements(heap, next.frames, shape)
  {
  }

  /** The innermost list has been visited. */
  lemma Leave(heap: Heap, data: Item, s: State, shape: seq<nat>)
    requires FaithfulTo(heap, data, s, shape) && s.value.None? && s.frames != [] && s.frames[|s.frames| - 1].rest == []
    requires s.terminal.Some? && |s.frames| <= |s.shape|
    ensures FaithfulTo(heap, data, s.(frames := s.frames[..|s.frames| - 1]), shape)
  {
    hide Elements, Rectangular;
  }

  /** The work that an item takes, with the lists that are being visited. */
  ghost function Work(heap: Heap, item: Item, active: set<nat>): nat
    decreases |heap.Keys - active|, 0
  {
    if item.List? && item.id in heap && item.id !in active && IsBranch(Items(heap, item.id)) then
      Fewer(heap, active, item.id);
      1 + AllWork(heap, Items(heap, item.id), active + {item.id})
    else 1
  }

  ghost function AllWork(heap: Heap, items: seq<Item>, active: set<nat>): nat
    decreases |heap.Keys - active|, |items| + 1
  {
    if items == [] then 0 else Work(heap, items[0], active) + AllWork(heap, items[1..], active)
  }

  lemma Fewer(heap: Heap, active: set<nat>, id: nat)
    requires id in heap && id !in active
    ensures |heap.Keys - (active + {id})| < |heap.Keys - active|
  {
    assert heap.Keys - active == (heap.Keys - (active + {id})) + {id};
  }

  ghost function RestWork(heap: Heap, frames: seq<Frame>): nat {
    if frames == [] then 0
    else AllWork(heap, frames[|frames| - 1].rest, Ids(frames)) + RestWork(heap, frames[..|frames| - 1])
  }

  ghost function StateWork(heap: Heap, s: State): nat {
    (if s.value.Some? then Work(heap, s.value.value, Ids(s.frames)) else 0) + RestWork(heap, s.frames)
  }

  lemma EnterWork(heap: Heap, s: State, next: State, id: nat)
    requires s.value == Some(List(id)) && IsBranch(Items(heap, id)) && id !in Ids(s.frames)
    requires next == s.(frames := s.frames + [Frame(Items(heap, id)[1..], id)], value := Some(Items(heap, id)[0]))
    ensures StateWork(heap, next) < StateWork(heap, s) && Ids(next.frames) == Ids(s.frames) + {id}
  {
    var frame := Frame(Items(heap, id)[1..], id);
    assert next.frames[..|s.frames|] == s.frames;
    IdsPushed(s.frames, frame);
    RestWorkPushed(heap, s.frames, frame);
    BranchWork(heap, id, Ids(s.frames));
    hide Ids, RestWork, Items, Work, AllWork;
  }

  lemma BranchWork(heap: Heap, id: nat, active: set<nat>)
    requires IsBranch(Items(heap, id)) && id !in active
    ensures Work(heap, List(id), active)
         == 1 + Work(heap, Items(heap, id)[0], active + {id}) + AllWork(heap, Items(heap, id)[1..], active + {id})
  {
    Fewer(heap, active, id);
    assert Work(heap, List(id), active) == 1 + AllWork(heap, Items(heap, id), active + {id});
  }

  lemma RestWorkPushed(heap: Heap, frames: seq<Frame>, frame: Frame)
    ensures RestWork(heap, frames + [frame])
         == AllWork(heap, frame.rest, Ids(frames + [frame])) + RestWork(heap, frames)
  {
    assert (frames + [frame])[..|frames|] == frames;
    hide Ids, AllWork;
  }

  lemma IdsPushed(frames: seq<Frame>, frame: Frame)
    ensures Ids(frames + [frame]) == Ids(frames) + {frame.id}
  {
    assert forall f :: f in frames + [frame] <==> f in frames || f == frame;
    assert frame in frames + [frame];
    forall k: nat ensures k in Ids(frames + [frame]) <==> k in Ids(frames) + {frame.id} {
      if k in Ids(frames) {
        var f :| f in frames && f.id == k;
        assert f in frames + [frame];
      }
    }
  }

  lemma NextWork(heap: Heap, s: State, next: State)
    requires s.value.None? && s.frames != [] && s.frames[|s.frames| - 1].rest != []
    requires var last := |s.frames| - 1;
             var top := s.frames[last];
             next == s.(frames := s.frames[last := top.(rest := top.rest[1..])], value := Some(top.rest[0]))
    ensures StateWork(heap, next) == StateWork(heap, s) && Ids(next.frames) == Ids(s.frames)
  {
    var last := |s.frames| - 1;
    var top := s.frames[last];
    assert s.frames == s.frames[..last] + [top] && next.frames == s.frames[..last] + [top.(rest := top.rest[1..])];
    IdsPushed(s.frames[..last], top);
    IdsPushed(s.frames[..last], top.(rest := top.rest[1..]));
    assert next.frames[..last] == s.frames[..last];
    hide Ids, Work;
  }

  /** A chain of lists, each an element of the one before. */
  predicate Chain(heap: Heap, path: seq<nat>) {
    path != [] && forall j :: 0 < j < |path| ==> List(path[j]) in Items(heap, path[j - 1])
  }

  /** Some list below the data contains itself. */
  ghost predicate Cyclic(heap: Heap, data: Item) {
    exists path: seq<nat>, j: nat ::
        Chain(heap, path) && List(path[0]) == data && j < |path| - 1 && path[j] == path[|path| - 1]
  }

  /** What the traversal keeps: the meaning of the data, the way to it, and where it stands. */
  ghost predicate Traversal(heap: Heap, data: Item, s: State, active: set<nat>) {
    && Faithful(heap, data, s) && Linked(heap, s) && DistinctIds(s.frames) && Sized(s) && active == Ids(s.frames)
    && data.List? && (if s.frames == [] then s.value.Some? ==> s.value.value == data else List(s.frames[0].id) == data)
  }

  lemma Starts(heap: Heap, data: Item)
    requires data.List?
    ensures Traversal(heap, data, State([], Some(data), [], None, []), {})
  {
    var s := State([], Some(data), [], None, []);
    forall shape: seq<nat> ensures FaithfulTo(heap, data, s, shape) {
      assert shape[0..] == shape;
    }
    hide Elements, Rectangular;
  }

  lemma Impossible(heap: Heap, data: Item, s: State)
    requires Faithful(heap, data, s) && forall shape: seq<nat> :: !Open(heap, s, shape)
    ensures forall shape: seq<nat> :: !Rectangular(heap, data, shape)
  {
    forall shape: seq<nat> ensures !Rectangular(heap, data, shape) {
      assert FaithfulTo(heap, data, s, shape);
    }
    hide Open, Rectangular, Elements, Ancestors;
  }

  lemma CycleFound(heap: Heap, data: Item, s: State, active: set<nat>, id: nat)
    requires Traversal(heap, data, s, active) && s.value == Some(List(id)) && id in active
    ensures Cyclic(heap, data) && forall shape: seq<nat> :: !Rectangular(heap, data, shape)
  {
    var f :| f in s.frames && f.id == id;
    var j :| 0 <= j < |s.frames| && s.frames[j] == f;
    forall shape: seq<nat> ensures !Open(heap, s, shape) {
      assert FaithfulTo(heap, data, s, shape);
      CycleNone(heap, data, s, id, j, shape);
    }
    Impossible(heap, data, s);
    CyclicPath(heap, data, s, id, j);
  }

  lemma CyclicPath(heap: Heap, data: Item, s: State, id: nat, j: nat)
    requires Linked(heap, s) && s.value == Some(List(id)) && j < |s.frames| && s.frames[j].id == id
    requires List(s.frames[0].id) == data
    ensures Cyclic(heap, data)
  {
    var path := seq(|s.frames|, i requires 0 <= i < |s.frames| => s.frames[i].id) + [id];
    forall k | 0 < k < |path| ensures List(path[k]) in Items(heap, path[k - 1]) {
    }
    assert Chain(heap, path) && path[j] == path[|path| - 1] && j < |path| - 1;
    hide Items;
  }

  /** The state with the dimension of the list that is visited. */
  function Dimensioned(heap: Heap, s: State, id: nat): State {
    if |s.frames| == |s.shape| then s.(shape := s.shape + [|Items(heap, id)|]) else s
  }

  lemma Dimension(heap: Heap, data: Item, s: State, active: set<nat>, id: nat)
    requires Traversal(heap, data, s, active) && s.value == Some(List(id))
    requires s.terminal.Some? ==> |s.frames| < |s.shape|
    ensures Faithful(heap, data, Dimensioned(heap, s, id)) && |s.frames| < |Dimensioned(heap, s, id).shape|
    ensures s.terminal.None? ==> |Dimensioned(heap, s, id).shape| == |s.frames| + 1
  {
    forall shape: seq<nat> ensures FaithfulTo(heap, data, Dimensioned(heap, s, id), shape) {
      assert FaithfulTo(heap, data, s, shape);
      if |s.frames| == |s.shape| {
        Extend(heap, data, s, id, shape);
      }
    }
    hide FaithfulTo, Linked, DistinctIds, Ids;
  }

  lemma Enters(heap: Heap, data: Item, s: State, active: set<nat>, id: nat, dimensioned: State, next: State)
    requires Traversal(heap, data, s, active) && s.value == Some(List(id)) && id !in active && IsBranch(Items(heap, id))
    requires dimensioned == Dimensioned(heap, s, id) && Faithful(heap, data, dimensioned)
    requires |s.frames| < |dimensioned.shape| && dimensioned.shape[|s.frames|] == |Items(heap, id)|
    requires if s.terminal.None? then |dimensioned.shape| == |s.frames| + 1 else |s.frames| < |s.shape|
    requires next == dimensioned.(frames := s.frames + [Frame(Items(heap, id)[1..], id)],
                                  value := Some(Items(heap, id)[0]))
    ensures Traversal(heap, data, next, active + {id}) && StateWork(heap, next) < StateWork(heap, s)
  {
    hide FaithfulTo, Linked, DistinctIds, Ids, Work, RestWork, Items;
    forall shape: seq<nat> ensures FaithfulTo(heap, data, next, shape) {
      assert FaithfulTo(heap, data, dimensioned, shape);
      Enter(heap, data, dimensioned, id, shape);
    }
    EnterWork(heap, dimensioned, next, id);
    EnterDistinct(s.frames, Frame(Items(heap, id)[1..], id));
    EnterLinked(heap, s, next, id);
  }

  lemma EnterDistinct(frames: seq<Frame>, frame: Frame)
    requires DistinctIds(frames) && frame.id !in Ids(frames)
    ensures DistinctIds(frames + [frame])
  {
    forall i, j | 0 <= i < j < |frames + [frame]| ensures (frames + [frame])[i].id != (frames + [frame])[j].id {
      if j == |frames| {
        assert frames[i] in frames;
      }
    }
  }

  lemma EnterLinked(heap: Heap, s: State, next: State, id: nat)
    requires Linked(heap, s) && s.value == Some(List(id)) && IsBranch(Items(heap, id))
    requires next.frames == s.frames + [Frame(Items(heap, id)[1..], id)] && next.value == Some(Items(heap, id)[0])
    ensures Linked(heap, next)
  {
    hide Items;
  }

  lemma LeafRead(heap: Heap, data: Item, s: State, active: set<nat>, id: nat, dimensioned: State, next: State)
    requires Traversal(heap, data, s, active) && s.value == Some(List(id)) && !IsBranch(Items(heap, id))
    requires Numeric(Items(heap, id)) && dimensioned == Dimensioned(heap, s, id) && Faithful(heap, data, dimensioned)
    requires |dimensioned.shape| == |s.frames| + 1 && dimensioned.shape[|s.frames|] == |Items(heap, id)|
    requires next == dimensioned.(value := None, terminal := Some(|s.frames| + 1),
                                  buffer := s.buffer + Numbers(Items(heap, id)))
    ensures Traversal(heap, data, next, active) && StateWork(heap, next) < StateWork(heap, s)
  {
    forall shape: seq<nat> ensures FaithfulTo(heap, data, next, shape) {
      assert FaithfulTo(heap, data, dimensioned, shape);
      Leaf(heap, data, dimensioned, id, shape, Numbers(Items(heap, id)));
    }
    hide FaithfulTo, DistinctIds, Ids, RestWork, Items, Numbers;
  }

  lemma Nexts(heap: Heap, data: Item, s: State, active: set<nat>, next: State)
    requires Traversal(heap, data, s, active) && s.value.None? && s.frames != [] && s.frames[|s.frames| - 1].rest != []
    requires s.terminal.Some?
    requires var last := |s.frames| - 1;
             var top := s.frames[last];
             next == s.(frames := s.frames[last := top.(rest := top.rest[1..])], value := Some(top.rest[0]))
    ensures Traversal(heap, data, next, active) && StateWork(heap, next) == StateWork(heap, s)
  {
    forall shape: seq<nat> ensures FaithfulTo(heap, data, next, shape) {
      assert FaithfulTo(heap, data, s, shape);
      Next(heap, data, s, shape);
    }
    NextWork(heap, s, next);
    hide FaithfulTo, Ids, Work, RestWork, Items;
  }

  lemma Leaves(heap: Heap, data: Item, s: State, active: set<nat>, next: State)
    requires Traversal(heap, data, s, active) && s.value.None? && s.frames != [] && s.frames[|s.frames| - 1].rest == []
    requires s.terminal.Some? && next == s.(frames := s.frames[..|s.frames| - 1])
    ensures Traversal(heap, data, next, active - {s.frames[|s.frames| - 1].id})
    ensures StateWork(heap, next) == StateWork(heap, s)
  {
    var last := |s.frames| - 1;
    forall shape: seq<nat> ensures FaithfulTo(heap, data, next, shape) {
      assert FaithfulTo(heap, data, s, shape);
      Leave(heap, data, s, shape);
    }
    assert s.frames == s.frames[..last] + [s.frames[last]];
    IdsPushed(s.frames[..last], s.frames[last]);
    LeaveDistinct(s.frames);
    hide FaithfulTo, Work, Items, Ids;
  }

  lemma LeaveDistinct(frames: seq<Frame>)
    requires DistinctIds(frames) && frames != []
    ensures DistinctIds(frames[..|frames| - 1]) && frames[|frames| - 1].id !in Ids(frames[..|frames| - 1])
  {
  }

  /** With nothing to come the data has the shape and the numbers that were read. */
  lemma Complete(heap: Heap, data: Item, s: State)
    requires Faithful(heap, data, s) && s.frames == [] && s.value.None? && s.terminal.Some?
    ensures Rectangular(heap, data, s.shape) && Elements(heap, data, s.shape) == s.buffer
  {
    assert FaithfulTo(heap, data, s, s.shape);
    hide Rectangular, Elements;
  }

  /** Converts a row of numbers. */
  method AppendNumericValues(items: seq<Item>, buffer: seq<int>) returns (result: Option<seq<int>>)
    ensures result == if Numeric(items) then Some(buffer + Numbers(items)) else None
  {
    var read := buffer;
    var i := 0;
    assert buffer + Numbers(items) == read + Numbers(items[0..]);
    while i < |items|
      invariant i <= |items| && Numeric(items[..i]) && buffer + Numbers(items) == read + Numbers(items[i..])
    {
      if !items[i].Number? {
        return None;
      }
      assert items[i..][1..] == items[i + 1..];
      read := read + [items[i].value];
      i := i + 1;
    }
    assert items[..i] == items && items[i..] == [] && read + [] == read;
    return Some(read);
  }

  /** Each list on a chain has one dimension less than the one before. */
  lemma {:induction false} ChainShapes(heap: Heap, path: seq<nat>, shape: seq<nat>, k: nat)
    requires Chain(heap, path) && Rectangular(heap, List(path[0]), shape) && k < |path|
    ensures k < |shape| && Rectangular(heap, List(path[k]), shape[k..])
  {
    hide Items;
    if k > 0 {
      ChainShapes(heap, path, shape, k - 1);
      var items := Items(heap, path[k - 1]);
      var i :| 0 <= i < |items| && items[i] == List(path[k]);
      assert |shape[k - 1..]| > 1;
      AllRectangularAt(heap, items, shape[k - 1..][1..], i);
      assert shape[k - 1..][1..] == shape[k..];
    } else {
      assert shape[0..] == shape;
    }
  }

  lemma NumberAcyclic(heap: Heap, data: Item)
    requires !data.List?
    ensures !Cyclic(heap, data)
  {
  }

  /** Nested lists that form a rectangle do not contain themselves. */
  lemma RectangularAcyclic(heap: Heap, data: Item, shape: seq<nat>)
    requires Rectangular(heap, data, shape)
    ensures !Cyclic(heap, data)
  {
    hide Rectangular, Items;
    if Cyclic(heap, data) {
      var path: seq<nat>, j: nat :|
        Chain(heap, path) && List(path[0]) == data && j < |path| - 1 && path[j] == path[|path| - 1];
      ChainShapes(heap, path, shape, j);
      ChainShapes(heap, path, shape, |path| - 1);
      ShapeUnique(heap, List(path[j]), shape[j..], shape[|path| - 1..]);
    }
  }

  /** The shape and the numbers of rectangular nested lists, and a refusal of everything else. */
  method InputBuffer(heap: Heap, data: Item) returns (result: Result)
    ensures result.Loaded? ==>
              Rectangular(heap, data, result.shape) && result.buffer == Elements(heap, data, result.shape)
    ensures !result.Loaded? ==> forall shape: seq<nat> :: !Rectangular(heap, data, shape)
    ensures result.Cycle? ==> Cyclic(heap, data)
    ensures result.Loaded? ==> !Cyclic(heap, data)
  {
    hide *;
    if !data.List? {
      NumberAcyclic(heap, data);
      ScalarOnly(heap, data);
      return if data.Number? then Loaded([data.value], []) else NotNumeric;
    }
    var s := State([], Some(data), [], None, []);
    var active: set<nat> := {};
    Starts(heap, data);
    while true
      invariant Traversal(heap, data, s, active) && s.value.Some?
      decreases StateWork(heap, s)
    {
      TraversalParts(heap, data, s, active);
      var depth := |s.frames|;
      match s.value.value {
        case List(id) => {
          var items := Items(heap, id);
          if id in active {
            CycleFound(heap, data, s, active, id);
            return Cycle;
          }
          if s.terminal.Some? && depth >= s.terminal.value {
            forall shape: seq<nat> ensures !Open(heap, s, shape) {
              TooDeep(heap, s, shape);
            }
            Impossible(heap, data, s);
            return UnevenDepth;
          }
          Dimension(heap, data, s, active, id);
          var dimensioned := Dimensioned(heap, s, id);
          DimensionedIs(heap, s, id);
          if dimensioned.shape[depth] != |items| {
            forall shape: seq<nat> ensures !Open(heap, dimensioned, shape) {
              Mismatch(heap, dimensioned, id, shape);
            }
            Impossible(heap, data, dimensioned);
            return Ragged;
          }
          BranchIs(items);
          if IsBranch(items) {
            ghost var before := s;
            s := dimensioned.(frames := s.frames + [Frame(items[1..], id)], value := Some(items[0]));
            Enters(heap, data, before, active, id, dimensioned, s);
            active := active + {id};
            continue;
          }
          var row := AppendNumericValues(items, s.buffer);
          if row.None? {
            forall shape: seq<nat> ensures !Open(heap, dimensioned, shape) {
              NotNumericNone(heap, dimensioned, id, shape);
            }
            Impossible(heap, data, dimensioned);
            return NotNumeric;
          }
          if s.terminal.Some? && s.terminal.value != depth + 1 {
            forall shape: seq<nat> ensures !Open(heap, dimensioned, shape) {
              UnevenLeaf(heap, dimensioned, id, shape);
            }
            Impossible(heap, data, dimensioned);
            return UnevenDepth;
          }
          ghost var before := s;
          s := dimensioned.(value := None, terminal := Some(depth + 1), buffer := row.value);
          LeafRead(heap, data, before, active, id, dimensioned, s);
        }
        case _ => {
          forall shape: seq<nat> ensures !Open(heap, s, shape) {
            NotList(heap, s, shape);
          }
          Impossible(heap, data, s);
          return UnevenDepth;
        }
      }
      s, active := Unwind(heap, data, s, active);
      if s.value.None? {
        FaithfulPart(heap, data, s, active);
        Complete(heap, data, s);
        RectangularAcyclic(heap, data, s.shape);
        return Loaded(s.buffer, s.shape);
      }
    }
  }

  /** Leaves the lists that have been visited, and takes the next element of the innermost one that has not. */
  method Unwind(ghost heap: Heap, ghost data: Item, state: State, before: set<nat>) returns (s: State, active: set<nat>)
    requires Traversal(heap, data, state, before) && state.value.None? && state.terminal.Some?
    ensures Traversal(heap, data, s, active) && s.terminal.Some? && StateWork(heap, s) == StateWork(heap, state)
    ensures s.value.None? ==> s.frames == []
  {
    hide *;
    s, active := state, before;
    while s.frames != []
      invariant Traversal(heap, data, s, active) && s.value.None? && s.terminal.Some?
      invariant StateWork(heap, s) == StateWork(heap, state)
      decreases |s.frames|
    {
      var last := |s.frames| - 1;
      var top := s.frames[last];
      ghost var earlier := s;
      if top.rest != [] {
        s := s.(frames := s.frames[last := top.(rest := top.rest[1..])], value := Some(top.rest[0]));
        Nexts(heap, data, earlier, active, s);
        return;
      }
      s := s.(frames := s.frames[..last]);
      Leaves(heap, data, earlier, active, s);
      active := active - {top.id};
    }
  }

  lemma ScalarOnly(heap: Heap, data: Item)
    requires !data.List?
    ensures data.Number? ==> Rectangular(heap, data, []) && Elements(heap, data, []) == [data.value]
    ensures !data.Number? ==> forall shape: seq<nat> :: !Rectangular(heap, data, shape)
  {
  }

  lemma TraversalParts(heap: Heap, data: Item, s: State, active: set<nat>)
    requires Traversal(heap, data, s, active)
    ensures Faithful(heap, data, s)
    ensures s.terminal.Some? ==> s.terminal.value == |s.shape| && |s.frames| <= |s.shape|
    ensures s.terminal.None? ==> |s.shape| == |s.frames|
  {
    hide Faithful, Linked, DistinctIds, Ids;
  }

  lemma FaithfulPart(heap: Heap, data: Item, s: State, active: set<nat>)
    requires Traversal(heap, data, s, active)
    ensures Faithful(heap, data, s)
  {
  }

  lemma BranchIs(items: seq<Item>)
    ensures IsBranch(items) <==> items != [] && items[0].List?
  {
  }

  lemma DimensionedIs(heap: Heap, s: State, id: nat)
    ensures var d := Dimensioned(heap, s, id);
            d == if |s.frames| == |s.shape| then s.(shape := s.shape + [|Items(heap, id)|]) else s
  {
  }
}
