/**
 * What reverse accumulation has to compute: the gradient of a node is the sum of
 * what its selected consumers pass back, which is the sum over all paths from
 * the output, and the transpose of the forward derivative.
 */
module DerivativeGradients {
  import opened Options
  import opened Tensors
  import opened DerivativeGraph

  lemma AddAssociates(a: Vector, b: Vector, c: Vector)
    requires |a| == |b| == |c|
    ensures Add(Add(a, b), c) == Add(a, Add(b, c))
  {
  }

  lemma AddZeros(a: Vector)
    ensures |Zeros(|a|)| == |a| && Add(a, Zeros(|a|)) == a && Add(Zeros(|a|), a) == a
  {
  }

  lemma AddSwaps(a: Vector, b: Vector, c: Vector)
    requires |a| == |b| == |c|
    ensures Add(Add(a, b), c) == Add(Add(a, c), b)
  {
  }

  /** What the first positions of node m pass back to n. */
  function FromNode(g: Graph, m: Id, n: Id, incoming: Vector, upto: nat): (v: Vector)
    requires Recorded(g) && m < |g| && n < |g| && |incoming| == g[m].size && upto <= |g[m].inputs|
    ensures |v| == g[n].size
  {
    if upto == 0 then Zeros(g[n].size)
    else if IsEdge(g, m, upto - 1, n) then
      Add(FromNode(g, m, n, incoming, upto - 1), Vjp(g, m, upto - 1, n, incoming))
    else FromNode(g, m, n, incoming, upto - 1)
  }

  /** The gradient at n of the output weighted by the seed, through the needed nodes. */
  function Gradient(g: Graph, needed: set<Id>, output: Id, seed: Vector, n: Id): (v: Vector)
    requires Recorded(g) && output < |g| && n <= output && |seed| == g[output].size
    ensures |v| == g[n].size
    decreases output - n, 1, 0
  {
    if n == output then seed else Gathered(g, needed, output, seed, needed, n, output)
  }

  /** What the consumers in sel, up to m, pass back to n. */
  function Gathered(g: Graph, needed: set<Id>, output: Id, seed: Vector, sel: set<Id>, n: Id, m: Id): (v: Vector)
    requires Recorded(g) && output < |g| && n <= m <= output && |seed| == g[output].size
    ensures |v| == g[n].size
    decreases output - n, 0, m
  {
    if m == n then Zeros(g[n].size)
    else if m in sel then
      Add(Gathered(g, needed, output, seed, sel, n, m - 1),
          FromNode(g, m, n, Gradient(g, needed, output, seed, m), |g[m].inputs|))
    else Gathered(g, needed, output, seed, sel, n, m - 1)
  }

  /** One more consumer adds what it passes back, whichever order they come in. */
  lemma {:induction false} GatheredMore(g: Graph, needed: set<Id>, output: Id, seed: Vector, sel: set<Id>, n: Id, m: Id,
                                        k: Id)
    requires Recorded(g) && output < |g| && n <= m <= output && |seed| == g[output].size
    requires k !in sel && k <= output
    ensures Gathered(g, needed, output, seed, sel + {k}, n, m)
         == if n < k <= m
            then Add(Gathered(g, needed, output, seed, sel, n, m),
                     FromNode(g, k, n, Gradient(g, needed, output, seed, k), |g[k].inputs|))
            else Gathered(g, needed, output, seed, sel, n, m)
    decreases m
  {
    hide FromNode, Gradient, Add;
    if m > n {
      GatheredMore(g, needed, output, seed, sel, n, m - 1, k);
      if k < m && m in sel && n < k {
        AddSwaps(Gathered(g, needed, output, seed, sel, n, m - 1),
                 FromNode(g, k, n, Gradient(g, needed, output, seed, k), |g[k].inputs|),
                 FromNode(g, m, n, Gradient(g, needed, output, seed, m), |g[m].inputs|));
      }
    }
  }

  /** The edges from the first positions of m to n. */
  function EdgesFrom(g: Graph, m: Id, n: Id, upto: nat): nat
    requires m < |g| && upto <= |g[m].inputs|
  {
    if upto == 0 then 0 else EdgesFrom(g, m, n, upto - 1) + if g[m].inputs[upto - 1] == Some(n) then 1 else 0
  }

  /** The edges into n from the nodes of sel up to m. */
  function EdgesInto(g: Graph, sel: set<Id>, n: Id, m: Id): nat
    requires n <= m < |g|
    decreases m
  {
    if m == n then 0 else EdgesInto(g, sel, n, m - 1) + if m in sel then EdgesFrom(g, m, n, |g[m].inputs|) else 0
  }

  lemma {:induction false} EdgesLess(g: Graph, sel: set<Id>, n: Id, m: Id, k: Id)
    requires n <= m < |g| && k in sel && k < |g|
    ensures EdgesInto(g, sel, n, m) == EdgesInto(g, sel - {k}, n, m)
            + if n < k <= m then EdgesFrom(g, k, n, |g[k].inputs|) else 0
    decreases m
  {
    hide EdgesFrom;
    if m > n {
      EdgesLess(g, sel, n, m - 1, k);
    }
  }

  lemma {:induction false} EdgesMore(g: Graph, sel: set<Id>, n: Id, m: Id, k: Id)
    requires n <= m < |g| && k !in sel && k < |g|
    ensures EdgesInto(g, sel + {k}, n, m) == EdgesInto(g, sel, n, m)
            + if n < k <= m then EdgesFrom(g, k, n, |g[k].inputs|) else 0
    decreases m
  {
    hide EdgesFrom;
    if m > n {
      EdgesMore(g, sel, n, m - 1, k);
    }
  }

  lemma {:induction false} EdgesSplit(g: Graph, sel: set<Id>, done: set<Id>, n: Id, m: Id)
    requires n <= m < |g| && done <= sel
    ensures EdgesInto(g, sel, n, m) == EdgesInto(g, done, n, m) + EdgesInto(g, sel - done, n, m)
    decreases m
  {
    hide EdgesFrom;
    if m > n {
      EdgesSplit(g, sel, done, n, m - 1);
    }
  }

  lemma {:induction false} NoEdgesNothing(g: Graph, m: Id, n: Id, incoming: Vector, upto: nat)
    requires Recorded(g) && m < |g| && n < |g| && |incoming| == g[m].size && upto <= |g[m].inputs|
    requires EdgesFrom(g, m, n, upto) == 0
    ensures FromNode(g, m, n, incoming, upto) == Zeros(g[n].size)
  {
    hide Zeros;
    if upto > 0 {
      NoEdgesNothing(g, m, n, incoming, upto - 1);
    }
  }

  /** Once no edge is pending, what has been gathered is the gradient. */
  lemma {:induction false} GatheredAll(g: Graph, needed: set<Id>, output: Id, seed: Vector, done: set<Id>, n: Id, m: Id)
    requires Recorded(g) && output < |g| && n <= m <= output && |seed| == g[output].size && done <= needed
    requires EdgesInto(g, needed - done, n, m) == 0
    ensures Gathered(g, needed, output, seed, done, n, m) == Gathered(g, needed, output, seed, needed, n, m)
    decreases m
  {
    hide FromNode, Gradient, Add, EdgesFrom, Zeros;
    if m > n {
      GatheredAll(g, needed, output, seed, done, n, m - 1);
      if m in needed && m !in done {
        NoEdgesNothing(g, m, n, Gradient(g, needed, output, seed, m), |g[m].inputs|);
        AddZeros(Gathered(g, needed, output, seed, needed, n, m - 1));
      }
    }
  }

  lemma {:induction false} EdgeCounted(g: Graph, m: Id, p: nat, n: Id, upto: nat)
    requires IsEdge(g, m, p, n) && p < upto <= |g[m].inputs|
    ensures EdgesFrom(g, m, n, upto) > 0
  {
    if upto - 1 > p {
      EdgeCounted(g, m, p, n, upto - 1);
    }
  }

  lemma {:induction false} EdgeIntoCounted(g: Graph, sel: set<Id>, k: Id, p: nat, n: Id, m: Id)
    requires n < k <= m < |g| && k in sel && IsEdge(g, k, p, n)
    ensures EdgesInto(g, sel, n, m) > 0
    decreases m
  {
    if m == k {
      EdgeCounted(g, k, p, n, |g[k].inputs|);
    } else {
      EdgeIntoCounted(g, sel, k, p, n, m - 1);
    }
  }

  lemma {:induction false} EdgesMonotone(g: Graph, m: Id, n: Id, p: nat, q: nat)
    requires m < |g| && p <= q <= |g[m].inputs|
    ensures EdgesFrom(g, m, n, p) <= EdgesFrom(g, m, n, q)
  {
    if p < q {
      EdgesMonotone(g, m, n, p, q - 1);
    }
  }

  /** A node has no edge to a node constructed after it. */
  lemma {:induction false} NoEdgeUp(g: Graph, m: Id, n: Id, upto: nat)
    requires Recorded(g) && m < |g| && m <= n && upto <= |g[m].inputs|
    ensures EdgesFrom(g, m, n, upto) == 0
  {
    if upto > 0 {
      NoEdgeUp(g, m, n, upto - 1);
      assert Earlier(g, m);
    }
  }

  /** Without selected consumers there is nothing to gather. */
  lemma {:induction false} NothingSelected(g: Graph, needed: set<Id>, output: Id, seed: Vector, n: Id, m: Id)
    requires Recorded(g) && output < |g| && n <= m <= output && |seed| == g[output].size
    ensures Gathered(g, needed, output, seed, {}, n, m) == Zeros(g[n].size) && EdgesInto(g, {}, n, m) == 0
    decreases m
  {
    hide Zeros;
    if m > n {
      NothingSelected(g, needed, output, seed, n, m - 1);
    }
  }
}
