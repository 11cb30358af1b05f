/** The nodes all of whose contributions have arrived, as a binary heap with the highest priority on top. */
module ReadyNodes {
  import opened Options
  import opened DerivativeGraph

  const MAX_SAFE_INTEGER: nat := 0x1f_ffff_ffff_ffff

  /** Leaf accumulators outrank ready recipes; among those the latest constructed comes first. */
  function Priority(g: Graph, n: Id): nat {
    if n < |g| && g[n].recipe.Leaf? then MAX_SAFE_INTEGER else n
  }

  function Parent(i: nat): (j: nat)
    requires i > 0
    ensures j < i
  {
    (i - 1) / 2
  }

  /** The entry at i does not outrank its parent. */
  predicate Below(g: Graph, heap: seq<Id>, i: nat)
    requires 0 < i < |heap|
  {
    Priority(g, heap[Parent(i)]) >= Priority(g, heap[i])
  }

  predicate Heap(g: Graph, heap: seq<Id>) { forall i :: 0 < i < |heap| ==> Below(g, heap, i) }

  /** The top outranks everything. */
  lemma {:induction false} TopHighest(g: Graph, heap: seq<Id>, i: nat)
    requires Heap(g, heap) && i < |heap|
    ensures Priority(g, heap[0]) >= Priority(g, heap[i])
  {
    if i > 0 {
      assert Below(g, heap, i);
      TopHighest(g, heap, Parent(i));
    }
  }

  /** In order except between hole and its parent, whose value the children of hole do not outrank either. */
  predicate Rising(g: Graph, heap: seq<Id>, hole: nat) {
    && hole < |heap|
    && (forall i :: 0 < i < |heap| && i != hole ==> Below(g, heap, i))
    && (forall i :: 0 < i < |heap| && hole > 0 && Parent(i) == hole ==>
          Priority(g, heap[Parent(hole)]) >= Priority(g, heap[i]))
  }

  function Swapped(heap: seq<Id>, i: nat, j: nat): (r: seq<Id>)
    requires i < |heap| && j < |heap|
  {
    heap[i := heap[j]][j := heap[i]]
  }

  lemma SwappedSame(heap: seq<Id>, i: nat, j: nat)
    requires i < |heap| && j < |heap|
    ensures multiset(Swapped(heap, i, j)) == multiset(heap)
  {
  }

  lemma RisingStep(g: Graph, heap: seq<Id>, hole: nat)
    requires Rising(g, heap, hole) && hole > 0 && Priority(g, heap[Parent(hole)]) < Priority(g, heap[hole])
    ensures Rising(g, Swapped(heap, hole, Parent(hole)), Parent(hole))
  {
    var up := Parent(hole);
    var r := Swapped(heap, hole, up);
    forall i | 0 < i < |r| && i != up ensures Below(g, r, i) {
      if i != hole {
        assert Below(g, heap, i);
        if up > 0 {
          assert Below(g, heap, up);
        }
      }
    }
    forall i | 0 < i < |r| && up > 0 && Parent(i) == up ensures Priority(g, r[Parent(up)]) >= Priority(g, r[i]) {
      assert Below(g, heap, up);
      if i != hole {
        assert Below(g, heap, i);
      }
    }
    hide Priority;
  }

  /** In order except between hole and its children, which its parent is not outranked by. */
  predicate Sinking(g: Graph, heap: seq<Id>, hole: nat) {
    && hole < |heap|
    && (forall i :: 0 < i < |heap| && Parent(i) != hole ==> Below(g, heap, i))
    && (forall i :: 0 < i < |heap| && hole > 0 && Parent(i) == hole ==>
          Priority(g, heap[Parent(hole)]) >= Priority(g, heap[i]))
  }

  lemma SinkingStep(g: Graph, heap: seq<Id>, hole: nat, child: nat)
    requires Sinking(g, heap, hole) && 0 < child < |heap| && Parent(child) == hole
    requires Priority(g, heap[hole]) < Priority(g, heap[child])
    requires Highest(g, heap, hole, child)
    ensures Sinking(g, Swapped(heap, hole, child), child)
  {
    var r := Swapped(heap, hole, child);
    forall i | 0 < i < |r| && Parent(i) != child ensures Below(g, r, i) {
      if Parent(i) != hole {
        assert Below(g, heap, i);
      }
    }
    forall i | 0 < i < |r| && child > 0 && Parent(i) == child
      ensures Priority(g, r[Parent(child)]) >= Priority(g, r[i])
    {
      assert Below(g, heap, i);
    }
    hide Priority;
  }

  class ReadyDerivativeNodes {
    const g: Graph
    var heap: seq<Id>

    constructor (g: Graph)
      ensures Heap(g, heap) && heap == [] && this.g == g
    {
      this.g := g;
      heap := [];
    }

    method Push(node: Id)
      requires Heap(g, heap)
      modifies this
      ensures Heap(g, heap) && multiset(heap) == multiset(old(heap)) + multiset{node}
    {
      hide Priority;
      var index := |heap|;
      heap := heap + [node];
      ghost var all := multiset(heap);
      PushRises(g, old(heap), node);
      while index > 0
        invariant 0 <= index < |heap| && heap[index] == node && Rising(g, heap, index) && multiset(heap) == all
        decreases index
      {
        var parent := Parent(index);
        if Priority(g, heap[parent]) >= Priority(g, node) {
          break;
        }
        RisingStep(g, heap, index);
        SwappedSame(heap, index, parent);
        heap := Swapped(heap, index, parent);
        index := parent;
      }
      assert forall i :: 0 < i < |heap| && i != index ==> Below(g, heap, i);
      assert index > 0 ==> Below(g, heap, index);
    }

    method Pop() returns (first: Option<Id>)
      requires Heap(g, heap)
      modifies this
      ensures Heap(g, heap) && (first.None? <==> old(heap) == [])
      ensures first.Some? ==>
                && first.value in old(heap) && multiset(heap) == multiset(old(heap)) - multiset{first.value}
                && forall i :: 0 <= i < |old(heap)| ==> Priority(g, first.value) >= Priority(g, old(heap)[i])
    {
      hide Priority;
      if heap == [] {
        return None;
      }
      ghost var before := heap;
      forall i | 0 <= i < |before| ensures Priority(g, before[0]) >= Priority(g, before[i]) {
        TopHighest(g, before, i);
      }
      first := Some(heap[0]);
      var last := heap[|heap| - 1];
      heap := heap[..|heap| - 1];
      if heap == [] {
        return;
      }
      PopParts(before);
      heap := heap[0 := last];
      assert Sinking(g, heap, 0) by { PopSinks(g, before); }
      SiftDown();
    }

    method SiftDown()
      requires heap != [] && Sinking(g, heap, 0)
      modifies this
      ensures Heap(g, heap) && multiset(heap) == multiset(old(heap))
    {
      hide Priority, Sinking, Heap, Swapped, Highest;
      var index := 0;
      var last := heap[0];
      while index * 2 + 1 < |heap|
        invariant 0 <= index < |heap| && heap[index] == last && Sinking(g, heap, index)
        invariant multiset(heap) == multiset(old(heap))
        decreases |heap| - index
      {
        var child := HighestChild(index);
        if Priority(g, last) >= Priority(g, heap[child]) {
          Settled(g, heap, index, child);
          return;
        }
        SinkingStep(g, heap, index, child);
        SwappedSame(heap, index, child);
        SwappedAt(heap, index, child);
        heap := Swapped(heap, index, child);
        index := child;
      }
      Childless(g, heap, index);
    }

    /** The child with the higher priority, the first of two equal ones. */
    method HighestChild(index: nat) returns (child: nat)
      requires index * 2 + 1 < |heap|
      ensures index < child < |heap| && Parent(child) == index && Highest(g, heap, index, child)
    {
      hide Priority;
      child := index * 2 + 1;
      if child + 1 < |heap| && Priority(g, heap[child + 1]) > Priority(g, heap[child]) {
        child := child + 1;
      }
      forall i | 0 < i < |heap| && Parent(i) == index ensures i == index * 2 + 1 || i == index * 2 + 2 {
      }
    }
  }

  /** No child of the hole outranks this one. */
  predicate Highest(g: Graph, heap: seq<Id>, hole: nat, child: nat)
    requires child < |heap|
  {
    forall i :: 0 < i < |heap| && Parent(i) == hole ==> Priority(g, heap[child]) >= Priority(g, heap[i])
  }

  lemma SwappedAt(heap: seq<Id>, i: nat, j: nat)
    requires i < |heap| && j < |heap|
    ensures |Swapped(heap, i, j)| == |heap| && Swapped(heap, i, j)[j] == heap[i]
  {
  }

  lemma Childless(g: Graph, heap: seq<Id>, hole: nat)
    requires Sinking(g, heap, hole) && |heap| <= hole * 2 + 1
    ensures Heap(g, heap)
  {
    hide Priority;
  }

  lemma PushRises(g: Graph, heap: seq<Id>, node: Id)
    requires Heap(g, heap)
    ensures Rising(g, heap + [node], |heap|)
  {
    var r := heap + [node];
    forall i | 0 < i < |heap| ensures Below(g, r, i) {
      assert Below(g, heap, i);
    }
    hide Priority;
  }

  lemma Settled(g: Graph, heap: seq<Id>, hole: nat, child: nat)
    requires Sinking(g, heap, hole) && child < |heap| && Priority(g, heap[hole]) >= Priority(g, heap[child])
    requires Highest(g, heap, hole, child)
    ensures Heap(g, heap)
  {
    hide Priority;
  }

  lemma PopParts(before: seq<Id>)
    requires |before| > 1
    ensures var last := before[|before| - 1];
            var less := before[..|before| - 1];
            multiset(less[0 := last]) == multiset(before) - multiset{before[0]}
  {
    var last, less := before[|before| - 1], before[..|before| - 1];
    assert before == less + [last];
    assert less == [less[0]] + less[1..] && less[0 := last] == [last] + less[1..];
  }

  lemma PopSinks(g: Graph, before: seq<Id>)
    requires Heap(g, before) && |before| > 1
    ensures Sinking(g, before[..|before| - 1][0 := before[|before| - 1]], 0)
  {
    var r := before[..|before| - 1][0 := before[|before| - 1]];
    forall i | 0 < i < |r| && Parent(i) != 0 ensures Below(g, r, i) {
      assert Below(g, before, i);
    }
    hide Priority;
  }
}
