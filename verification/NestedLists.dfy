/** Nested Python lists: objects with identities, which may be shared and may contain themselves. */
module NestedLists {
  datatype Item = Number(value: int) | List(id: nat) | Other

  type Heap = map<nat, seq<Item>>

  function Items(heap: Heap, id: nat): seq<Item> { if id in heap then heap[id] else [] }

  predicate Numeric(items: seq<Item>) { forall i :: 0 <= i < |items| ==> items[i].Number? }

  /**
   * The item unfolds into a rectangle of this shape. A list without elements ends
   * the shape, so that only the last dimension can be zero.
   */
  predicate Rectangular(heap: Heap, item: Item, shape: seq<nat>)
    decreases |shape|, 0
  {
    if shape == [] then item.Number?
    else
      item.List? && var items := Items(heap, item.id);
      |items| == shape[0]
      && if |shape| == 1 then Numeric(items) else items != [] && AllRectangular(heap, items, shape[1..])
  }

  predicate AllRectangular(heap: Heap, items: seq<Item>, shape: seq<nat>)
    decreases |shape|, |items| + 1
  {
    items == [] || (Rectangular(heap, items[0], shape) && AllRectangular(heap, items[1..], shape))
  }

  /** The numbers of the unfolding in row-major order. */
  function Elements(heap: Heap, item: Item, shape: seq<nat>): seq<int>
    decreases |shape|, 0
  {
    if shape == [] then (if item.Number? then [item.value] else [])
    else if item.List? then AllElements(heap, Items(heap, item.id), shape[1..])
    else []
  }

  function AllElements(heap: Heap, items: seq<Item>, shape: seq<nat>): seq<int>
    decreases |shape|, |items| + 1
  {
    if items == [] then [] else Elements(heap, items[0], shape) + AllElements(heap, items[1..], shape)
  }

  lemma {:induction false} AllRectangularAt(heap: Heap, items: seq<Item>, shape: seq<nat>, i: nat)
    requires AllRectangular(heap, items, shape) && i < |items|
    ensures Rectangular(heap, items[i], shape)
    decreases i
  {
    if i > 0 {
      AllRectangularAt(heap, items[1..], shape, i - 1);
    }
  }

  /** A list whose first element is a list is a branch; any other one ends the shape. */
  predicate IsBranch(items: seq<Item>) { items != [] && items[0].List? }

  lemma BranchTells(heap: Heap, item: Item, shape: seq<nat>)
    requires Rectangular(heap, item, shape) && shape != []
    ensures item.List? && (|shape| == 1 <==> !IsBranch(Items(heap, item.id)))
  {
    if |shape| > 1 {
      AllRectangularAt(heap, Items(heap, item.id), shape[1..], 0);
    }
  }

  /** An item has at most one shape. */
  lemma {:induction false} ShapeUnique(heap: Heap, item: Item, a: seq<nat>, b: seq<nat>)
    requires Rectangular(heap, item, a) && Rectangular(heap, item, b)
    ensures a == b
    decreases |a|
  {
    if a != [] {
      BranchTells(heap, item, a);
      BranchTells(heap, item, b);
      assert a == [a[0]] + a[1..] && b == [b[0]] + b[1..];
      if |a| > 1 {
        ShapeUnique(heap, Items(heap, item.id)[0], a[1..], b[1..]);
      }
    }
  }
}
