/**
 * Recorded derivative histories. A node is named by its construction sequence,
 * so that its inputs have smaller names; its recipe is a linear map of each
 * input, whose transpose is applied to incoming gradients.
 */
module DerivativeGraph {
  import opened Options
  import opened Tensors

  datatype Recipe =
    | Leaf
    | Identity
    | Pass
    | Rebase
    | Multiply
    | MatrixMultiply(rows: nat, inner: nat, columns: nat)
    | Reduce
    | Copy
    | CopySlices

  type Id = nat

  datatype Node = Node(size: nat, recipe: Recipe, inputs: seq<Option<Id>>, saved: seq<seq<Vector>>)

  type Graph = seq<Node>

  predicate SameSize(g: Graph, id: Id)
    requires id < |g|
  {
    forall p :: 0 <= p < |g[id].inputs| && g[id].inputs[p].Some? && g[id].inputs[p].value < |g| ==>
      g[g[id].inputs[p].value].size == g[id].size
  }

  function SizeOf(g: Graph, input: Option<Id>, otherwise: nat): nat {
    if input.Some? && input.value < |g| then g[input.value].size else otherwise
  }

  /** For a tracked input the node keeps one operand of the size given; without any it keeps nothing. */
  predicate Keeps(node: Node, p: nat, size: nat)
    requires p < |node.inputs|
  {
    node.inputs[p].Some? ==> p < |node.saved| && |node.saved[p]| == 1 && |node.saved[p][0]| == size
  }

  /** The node's operands have the sizes that its recipe asks for, and what it saved is there. */
  predicate Fits(g: Graph, id: Id)
    requires id < |g|
  {
    var node := g[id];
    match node.recipe
    case Leaf => node.inputs == []
    case Identity => SameSize(g, id)
    case Pass => SameSize(g, id)
    case Rebase => SameSize(g, id)
    case Multiply =>
      && |node.inputs| == 2 && SameSize(g, id) && Keeps(node, 0, node.size) && Keeps(node, 1, node.size)
    case MatrixMultiply(m, k, n) =>
      && |node.inputs| == 2 && node.size == m * n && Keeps(node, 0, k * n) && Keeps(node, 1, m * k)
      && (node.inputs[0].Some? ==> SizeOf(g, node.inputs[0], 0) == m * k)
      && (node.inputs[1].Some? ==> SizeOf(g, node.inputs[1], 0) == k * n)
    case Reduce => |node.inputs| == 1 && node.size == 1
    case Copy => |node.inputs| == 2 && SameSize(g, id)
    case CopySlices => |node.inputs| == 2 && SameSize(g, id)
  }

  /** Inputs were constructed before their node. */
  predicate Earlier(g: Graph, id: Id)
    requires id < |g|
  {
    forall p :: 0 <= p < |g[id].inputs| && g[id].inputs[p].Some? ==> g[id].inputs[p].value < id
  }

  predicate Recorded(g: Graph) { forall id :: 0 <= id < |g| ==> Earlier(g, id) && Fits(g, id) }

  /** Position p of node m is an edge to n. */
  predicate IsEdge(g: Graph, m: Id, p: nat, n: Id) {
    m < |g| && p < |g[m].inputs| && g[m].inputs[p] == Some(n)
  }

  /** The local vector-Jacobian product at a position. */
  function Vjp(g: Graph, m: Id, p: nat, n: Id, incoming: Vector): (v: Vector)
    requires Recorded(g) && IsEdge(g, m, p, n) && |incoming| == g[m].size
    ensures n < m && |v| == g[n].size
  {
    assert Earlier(g, m) && Fits(g, m);
    var node := g[m];
    match node.recipe
    case Identity => incoming
    case Pass => incoming
    case Rebase => incoming
    case Multiply => Times(incoming, node.saved[p][0])
    case MatrixMultiply(rows, inner, columns) =>
      if p == 0 then MatMul(incoming, node.saved[0][0], rows, columns, inner, false, true)
      else MatMul(node.saved[1][0], incoming, inner, rows, columns, true, false)
    case Reduce => Expand(incoming, g[n].size)
    case Copy => if p == 0 then Zeros(g[n].size) else incoming
    case CopySlices => if p == 0 then Zeros(g[n].size) else incoming
  }

  /** The forward derivative along one input. */
  function Jvp(g: Graph, m: Id, p: nat, n: Id, tangent: Vector): (v: Vector)
    requires Recorded(g) && IsEdge(g, m, p, n) && n < |g| && |tangent| == g[n].size
    ensures |v| == g[m].size
  {
    assert Earlier(g, m) && Fits(g, m);
    var node := g[m];
    match node.recipe
    case Identity => tangent
    case Pass => tangent
    case Rebase => tangent
    case Multiply => Times(tangent, node.saved[p][0])
    case MatrixMultiply(rows, inner, columns) =>
      if p == 0 then MatMul(tangent, node.saved[0][0], rows, inner, columns, false, false)
      else MatMul(node.saved[1][0], tangent, rows, inner, columns, false, false)
    case Reduce => Total(tangent)
    case Copy => if p == 0 then Zeros(node.size) else tangent
    case CopySlices => if p == 0 then Zeros(node.size) else tangent
  }

  /** Every recipe applies the transpose of the forward derivative. */
  lemma LocalAdjoint(g: Graph, m: Id, p: nat, n: Id, tangent: Vector, incoming: Vector)
    requires Recorded(g) && IsEdge(g, m, p, n) && n < |g|
    requires |tangent| == g[n].size && |incoming| == g[m].size
    ensures Dot(Jvp(g, m, p, n, tangent), incoming) == Dot(tangent, Vjp(g, m, p, n, incoming))
  {
    assert Earlier(g, m) && Fits(g, m);
    var node := g[m];
    match node.recipe
    case Multiply => TimesDual(tangent, node.saved[p][0], incoming);
    case MatrixMultiply(rows, inner, columns) => MatrixAdjoint(g, m, p, n, tangent, incoming);
    case Reduce => TotalDual(tangent, incoming);
    case Copy => CopyAdjoint(g, m, p, n, tangent, incoming);
    case CopySlices => CopyAdjoint(g, m, p, n, tangent, incoming);
    case _ =>
  }

  lemma CopyAdjoint(g: Graph, m: Id, p: nat, n: Id, tangent: Vector, incoming: Vector)
    requires Recorded(g) && IsEdge(g, m, p, n) && n < |g| && (g[m].recipe.Copy? || g[m].recipe.CopySlices?)
    requires |tangent| == g[n].size && |incoming| == g[m].size
    ensures Dot(Jvp(g, m, p, n, tangent), incoming) == Dot(tangent, Vjp(g, m, p, n, incoming))
  {
    assert Earlier(g, m) && Fits(g, m);
    DotZeros(incoming);
    DotZeros(tangent);
    hide Dot, Zeros;
  }

  lemma MatrixAdjoint(g: Graph, m: Id, p: nat, n: Id, tangent: Vector, incoming: Vector)
    requires Recorded(g) && IsEdge(g, m, p, n) && n < |g| && g[m].recipe.MatrixMultiply?
    requires |tangent| == g[n].size && |incoming| == g[m].size
    ensures Dot(Jvp(g, m, p, n, tangent), incoming) == Dot(tangent, Vjp(g, m, p, n, incoming))
  {
    assert Earlier(g, m) && Fits(g, m);
    var rows, inner, columns := g[m].recipe.rows, g[m].recipe.inner, g[m].recipe.columns;
    hide Dot, MatMul;
    if p == 0 {
      MatMulLeftDual(tangent, g[m].saved[0][0], incoming, rows, inner, columns);
    } else {
      MatMulRightDual(g[m].saved[1][0], tangent, incoming, rows, inner, columns);
    }
  }
}
