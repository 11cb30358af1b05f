/**
 * What the gradients mean: together they are the transpose of the forward
 * derivative of the output, and each is the sum over all paths from the output.
 */
module DerivativeMeaning {
  import opened Options
  import opened Tensors
  import opened DerivativeGraph
  import opened DerivativePlan
  import opened DerivativeGradients
  import opened DerivativeState

  lemma DotAddRight(a: Vector, b: Vector, c: Vector)
    requires |a| == |b| == |c|
    ensures Dot(a, Add(b, c)) == Dot(a, b) + Dot(a, c)
  {
    hide Dot, Add;
    DotAdd(b, c, a);
    DotCommutes(a, Add(b, c));
    DotCommutes(a, b);
    DotCommutes(a, c);
  }

  function Unit(n: nat, i: nat): (v: Vector)
    ensures |v| == n
  {
    Make(n, k => if k == i then 1 else 0)
  }

  lemma {:induction false} SumUnit(n: nat, i: nat, f: int -> int, c: int)
    requires forall k :: 0 <= k < n ==> f(k) == if k == i then c else 0
    ensures Sum(n, f) == if i < n then c else 0
  {
    if n > 0 {
      SumUnit(n - 1, i, f, c);
    }
  }

  lemma DotUnit(i: nat, v: Vector)
    requires i < |v|
    ensures Dot(Unit(|v|, i), v) == v[i]
  {
    SumUnit(|v|, i, k => At(Unit(|v|, i), k) * At(v, k), v[i]);
  }

  /** Vectors that pair alike with everything are equal. */
  lemma SamePairings(a: Vector, b: Vector)
    requires |a| == |b| && forall x: Vector :: |x| == |a| ==> Dot(x, a) == Dot(x, b)
    ensures a == b
  {
    forall i | 0 <= i < |a| ensures a[i] == b[i] {
      var u := Unit(|a|, i);
      assert Dot(u, a) == Dot(u, b);
      DotUnit(i, a);
      DotUnit(i, b);
    }
  }

  /** A change of the values of some nodes, of their sizes. */
  predicate Perturbs(g: Graph, delta: map<Id, Vector>) { forall n :: n in delta ==> n < |g| && |delta[n]| == g[n].size }

  function Delta(g: Graph, delta: map<Id, Vector>, n: Id): (v: Vector)
    requires n < |g| && Perturbs(g, delta)
    ensures |v| == g[n].size
  {
    if n in delta then delta[n] else Zeros(g[n].size)
  }

  /** The resulting change of node m, forward through the inputs in sel. */
  function Tangent(g: Graph, sel: set<Id>, delta: map<Id, Vector>, m: Id): (v: Vector)
    requires Recorded(g) && m < |g| && Perturbs(g, delta)
    ensures |v| == g[m].size
    decreases m, |g[m].inputs| + 1
  {
    Add(Delta(g, delta, m), Carried(g, sel, delta, m, |g[m].inputs|))
  }

  function Carried(g: Graph, sel: set<Id>, delta: map<Id, Vector>, m: Id, upto: nat): (v: Vector)
    requires Recorded(g) && m < |g| && Perturbs(g, delta) && upto <= |g[m].inputs|
    ensures |v| == g[m].size
    decreases m, upto
  {
    if upto == 0 then Zeros(g[m].size)
    else
      var rest, input := Carried(g, sel, delta, m, upto - 1), g[m].inputs[upto - 1];
      if input.Some? && input.value in sel then
        assert Earlier(g, m);
        Add(rest, Jvp(g, m, upto - 1, input.value, Tangent(g, sel, delta, input.value)))
      else rest
  }

  /** The selected tangent paired with the gradient, of one node. */
  function Paired(t: Task, delta: map<Id, Vector>, n: Id): int
    requires Proper(t) && n <= t.output && Perturbs(t.g, delta)
  {
    Dot(Tangent(t.g, t.needed, delta, n), Grad(t, n))
  }

  /** The part of the pairings that goes along the first edges from m to n. */
  ghost function Along(t: Task, delta: map<Id, Vector>, m: int, n: int, upto: nat): int
    requires Proper(t) && Perturbs(t.g, delta)
  {
    if 0 <= n < m <= t.output && m in t.needed && n in t.needed && upto <= |t.g[m].inputs| then
      Dot(Tangent(t.g, t.needed, delta, n), FromNode(t.g, m, n, Grad(t, m), upto))
    else 0
  }

  ghost function AlongAll(t: Task, delta: map<Id, Vector>, m: int, n: int): int
    requires Proper(t) && Perturbs(t.g, delta)
  {
    if 0 <= m <= t.output then Along(t, delta, m, n, |t.g[m].inputs|) else 0
  }

  lemma {:induction false} SumBump(n: nat, f: int -> int, h: int -> int, k: nat, d: int)
    requires forall i :: 0 <= i < n && i != k ==> f(i) == h(i)
    requires h(k) == f(k) + d
    ensures Sum(n, h) == Sum(n, f) + if k < n then d else 0
  {
    if n > 0 {
      SumBump(n - 1, f, h, k, d);
    }
  }

  /** What is carried into m pairs as the edges out of it do. */
  lemma {:induction false} CarriedAlong(t: Task, delta: map<Id, Vector>, m: Id, upto: nat)
    requires Proper(t) && Perturbs(t.g, delta) && m in t.needed && upto <= |t.g[m].inputs|
    ensures m <= t.output
    ensures Dot(Carried(t.g, t.needed, delta, m, upto), Grad(t, m))
         == Sum(t.output + 1, n => Along(t, delta, m, n, upto))
  {
    if upto == 0 {
      NothingCarried(t, delta, m);
    } else {
      CarriedAlong(t, delta, m, upto - 1);
      CarriedStep(t, delta, m, upto);
    }
    hide *;
  }

  lemma NothingCarried(t: Task, delta: map<Id, Vector>, m: Id)
    requires Proper(t) && Perturbs(t.g, delta) && m in t.needed
    ensures Dot(Carried(t.g, t.needed, delta, m, 0), Grad(t, m)) == 0
         == Sum(t.output + 1, n => Along(t, delta, m, n, 0))
  {
    DotZeros(Grad(t, m));
    forall n | 0 <= n < t.output + 1 ensures Along(t, delta, m, n, 0) == 0 {
      if n < m && n in t.needed {
        DotZeros(Tangent(t.g, t.needed, delta, n));
      }
    }
    hide Dot, Tangent, Grad, Along;
    SumZero(t.output + 1, n => Along(t, delta, m, n, 0));
  }

  lemma CarriedStep(t: Task, delta: map<Id, Vector>, m: Id, upto: nat)
    requires Proper(t) && Perturbs(t.g, delta) && m in t.needed && 0 < upto <= |t.g[m].inputs|
    requires Dot(Carried(t.g, t.needed, delta, m, upto - 1), Grad(t, m))
          == Sum(t.output + 1, n => Along(t, delta, m, n, upto - 1))
    ensures Dot(Carried(t.g, t.needed, delta, m, upto), Grad(t, m))
         == Sum(t.output + 1, n => Along(t, delta, m, n, upto))
  {
    hide Dot, Tangent, Grad, Carried, Along, EdgesInto, Sum, Needs, Perturbs;
    var input := t.g[m].inputs[upto - 1];
    var f, h := n => Along(t, delta, m, n, upto - 1), n => Along(t, delta, m, n, upto);
    if input.Some? && input.value in t.needed {
      var k := input.value;
      var d := CarriedHere(t, delta, m, upto, k);
      forall n | 0 <= n < t.output + 1 && n != k ensures f(n) == h(n) {
        AlongElsewhere(t, delta, m, n, upto);
      }
      hide *;
      SumBump(t.output + 1, f, h, k, d);
    } else {
      forall n | 0 <= n < t.output + 1 ensures f(n) == h(n) {
        AlongElsewhere(t, delta, m, n, upto);
      }
      SumSame(t.output + 1, f, h);
      CarriedSame(t, delta, m, upto);
      hide *;
    }
  }

  lemma CarriedSame(t: Task, delta: map<Id, Vector>, m: Id, upto: nat)
    requires Proper(t) && Perturbs(t.g, delta) && m in t.needed && 0 < upto <= |t.g[m].inputs|
    requires var input := t.g[m].inputs[upto - 1];
             !(input.Some? && input.value in t.needed)
    ensures Carried(t.g, t.needed, delta, m, upto) == Carried(t.g, t.needed, delta, m, upto - 1)
  {
    hide EdgesInto, Add, Zeros, Jvp;
  }

  lemma AlongElsewhere(t: Task, delta: map<Id, Vector>, m: Id, n: Id, upto: nat)
    requires Proper(t) && Perturbs(t.g, delta) && m in t.needed && 0 < upto <= |t.g[m].inputs|
    requires n in t.needed ==> t.g[m].inputs[upto - 1] != Some(n)
    ensures Along(t, delta, m, n, upto) == Along(t, delta, m, n, upto - 1)
  {
    hide Dot, Tangent, Grad, EdgesInto, Add, Zeros;
  }

  lemma CarriedHere(t: Task, delta: map<Id, Vector>, m: Id, upto: nat, k: Id) returns (d: int)
    requires Proper(t) && Perturbs(t.g, delta) && m in t.needed && 0 < upto <= |t.g[m].inputs|
    requires t.g[m].inputs[upto - 1] == Some(k) && k in t.needed
    ensures k <= t.output
    ensures Dot(Carried(t.g, t.needed, delta, m, upto), Grad(t, m))
         == Dot(Carried(t.g, t.needed, delta, m, upto - 1), Grad(t, m)) + d
    ensures Along(t, delta, m, k, upto) == Along(t, delta, m, k, upto - 1) + d
  {
    assert Earlier(t.g, m);
    var p, tangent, incoming := upto - 1, Tangent(t.g, t.needed, delta, k), Grad(t, m);
    assert IsEdge(t.g, m, p, k);
    d := Dot(Jvp(t.g, m, p, k, tangent), incoming);
    LocalAdjoint(t.g, m, p, k, tangent, incoming);
    DotAdd(Carried(t.g, t.needed, delta, m, p), Jvp(t.g, m, p, k, tangent), incoming);
    DotAddRight(tangent, FromNode(t.g, m, k, incoming, p), Vjp(t.g, m, p, k, incoming));
    hide Dot, Tangent, Grad, EdgesInto, Add, Zeros, Jvp, Vjp;
  }

  /** A node's pairing is its own change's and what goes along its edges. */
  lemma PairedOut(t: Task, delta: map<Id, Vector>, m: Id)
    requires Proper(t) && Perturbs(t.g, delta) && m in t.needed
    ensures m <= t.output
    ensures Paired(t, delta, m)
         == Dot(Delta(t.g, delta, m), Grad(t, m)) + Sum(t.output + 1, n => AlongAll(t, delta, m, n))
  {
    CarriedAlong(t, delta, m, |t.g[m].inputs|);
    DotAdd(Delta(t.g, delta, m), Carried(t.g, t.needed, delta, m, |t.g[m].inputs|), Grad(t, m));
    SumSame(t.output + 1, n => AlongAll(t, delta, m, n), n => Along(t, delta, m, n, |t.g[m].inputs|));
    hide Dot, Add, Grad, Along, Carried, Delta, EdgesInto;
  }

  /** A node's pairing is what comes along the edges into it. */
  lemma {:induction false} GatheredAlong(t: Task, delta: map<Id, Vector>, n: Id, m: Id)
    requires Proper(t) && Perturbs(t.g, delta) && n in t.needed && n <= m <= t.output
    ensures Dot(Tangent(t.g, t.needed, delta, n), Gathered(t.g, t.needed, t.output, t.seed, t.needed, n, m))
         == Sum(m + 1, k => AlongAll(t, delta, k, n))
    decreases m
  {
    var f := k => AlongAll(t, delta, k, n);
    if m == n {
      DotZeros(Tangent(t.g, t.needed, delta, n));
      hide Dot, Tangent, Grad, EdgesInto, FromNode;
      SumZero(m + 1, f);
    } else {
      GatheredAlong(t, delta, n, m - 1);
      GatheredStep(t, delta, n, m);
      hide Dot, Tangent, Gathered, AlongAll, Proper;
      assert Sum(m + 1, f) == Sum(m, f) + f(m);
    }
  }

  lemma GatheredStep(t: Task, delta: map<Id, Vector>, n: Id, m: Id)
    requires Proper(t) && Perturbs(t.g, delta) && n in t.needed && n < m <= t.output
    ensures Dot(Tangent(t.g, t.needed, delta, n), Gathered(t.g, t.needed, t.output, t.seed, t.needed, n, m))
         == Dot(Tangent(t.g, t.needed, delta, n), Gathered(t.g, t.needed, t.output, t.seed, t.needed, n, m - 1))
            + AlongAll(t, delta, m, n)
  {
    if m in t.needed {
      DotAddRight(Tangent(t.g, t.needed, delta, n), Gathered(t.g, t.needed, t.output, t.seed, t.needed, n, m - 1),
                  FromNode(t.g, m, n, Grad(t, m), |t.g[m].inputs|));
    }
    hide Dot, Tangent, Gradient, EdgesInto, FromNode, Add;
  }

  lemma PairedIn(t: Task, delta: map<Id, Vector>, n: Id)
    requires Proper(t) && Perturbs(t.g, delta) && n in t.needed
    ensures n <= t.output
    ensures Sum(t.output + 1, m => AlongAll(t, delta, m, n)) == if n == t.output then 0 else Paired(t, delta, n)
  {
    if n == t.output {
      hide Dot, Tangent, Grad, EdgesInto, FromNode;
      SumZero(t.output + 1, m => AlongAll(t, delta, m, n));
    } else {
      GatheredAlong(t, delta, n, t.output);
      hide Dot, Tangent, AlongAll, Gathered, EdgesInto;
    }
  }

  ghost function PairedAt(t: Task, delta: map<Id, Vector>, n: int): int
    requires Proper(t) && Perturbs(t.g, delta)
  {
    if 0 <= n <= t.output && n in t.needed then Paired(t, delta, n) else 0
  }

  /** The change of a selected node, paired with its gradient. */
  ghost function ChangeAt(t: Task, delta: map<Id, Vector>, n: int): int
    requires Proper(t) && Perturbs(t.g, delta)
  {
    if 0 <= n <= t.output && n in t.needed && n in delta then Dot(delta[n], Grad(t, n)) else 0
  }

  /** The change of the output is the changes of the selected nodes paired with their gradients. */
  lemma SelectedAdjoint(t: Task, delta: map<Id, Vector>)
    requires Proper(t) && Perturbs(t.g, delta)
    ensures Dot(Tangent(t.g, t.needed, delta, t.output), t.seed) == Sum(t.output + 1, n => ChangeAt(t, delta, n))
  {
    var size := t.output + 1;
    var f := (m, n) => AlongAll(t, delta, m, n);
    var pairings, changes := n => PairedAt(t, delta, n), n => ChangeAt(t, delta, n);
    forall m | 0 <= m < size ensures pairings(m) == changes(m) + RowSum(f, size, m) {
      RowIs(t, delta, m);
    }
    forall n | 0 <= n < size
      ensures ColumnSum(f, size, n) == pairings(n) - if n == t.output then PairedAt(t, delta, t.output) else 0
    {
      ColumnIs(t, delta, n);
    }
    OutputPaired(t, delta);
    hide *;
    var rows, columns := m => RowSum(f, size, m), n => ColumnSum(f, size, n);
    SumSame(size, pairings, m => changes(m) + rows(m));
    SumPlus(size, changes, rows);
    SumExchange(size, size, f);
    SumBump(size, columns, pairings, t.output, PairedAt(t, delta, t.output));
  }

  lemma OutputPaired(t: Task, delta: map<Id, Vector>)
    requires Proper(t) && Perturbs(t.g, delta)
    ensures PairedAt(t, delta, t.output) == Dot(Tangent(t.g, t.needed, delta, t.output), t.seed)
  {
    hide Dot, Tangent, EdgesInto;
  }

  lemma RowIs(t: Task, delta: map<Id, Vector>, m: Id)
    requires Proper(t) && Perturbs(t.g, delta) && m <= t.output
    ensures PairedAt(t, delta, m) == ChangeAt(t, delta, m) + RowSum((i, j) => AlongAll(t, delta, i, j), t.output + 1, m)
  {
    var f, row := (i, j) => AlongAll(t, delta, i, j), j => AlongAll(t, delta, m, j);
    assert RowSum(f, t.output + 1, m) == Sum(t.output + 1, row) by {
      SumSame(t.output + 1, j => f(m, j), row);
    }
    if m in t.needed {
      PairedOut(t, delta, m);
      DotZeros(Grad(t, m));
      hide Dot, Paired, AlongAll, EdgesInto, Grad, RowSum, ColumnSum;
    } else {
      hide Dot, Paired, EdgesInto, Grad, Tangent, RowSum, ColumnSum;
      SumZero(t.output + 1, row);
    }
  }

  lemma ColumnIs(t: Task, delta: map<Id, Vector>, n: Id)
    requires Proper(t) && Perturbs(t.g, delta) && n <= t.output
    ensures ColumnSum((i, j) => AlongAll(t, delta, i, j), t.output + 1, n)
         == PairedAt(t, delta, n) - if n == t.output then PairedAt(t, delta, t.output) else 0
  {
    var f, column := (i, j) => AlongAll(t, delta, i, j), i => AlongAll(t, delta, i, n);
    assert ColumnSum(f, t.output + 1, n) == Sum(t.output + 1, column) by {
      SumSame(t.output + 1, i => f(i, n), column);
    }
    if n in t.needed {
      PairedIn(t, delta, n);
      hide Dot, Paired, AlongAll, EdgesInto, Grad, RowSum, ColumnSum;
    } else {
      hide Dot, Paired, EdgesInto, Grad, Tangent, RowSum, ColumnSum;
      SumZero(t.output + 1, column);
    }
  }

  /** Nothing changes if nothing it depends on does. */
  lemma JvpZeros(g: Graph, m: Id, p: nat, k: Id)
    requires Recorded(g) && IsEdge(g, m, p, k) && k < |g|
    ensures Jvp(g, m, p, k, Zeros(g[k].size)) == Zeros(g[m].size)
  {
    var zeros := Zeros(g[k].size);
    hide Recorded, Jvp, Vjp, Dot;
    forall x: Vector | |x| == g[m].size ensures Dot(x, Jvp(g, m, p, k, zeros)) == Dot(x, Zeros(g[m].size)) {
      DotCommutes(x, Jvp(g, m, p, k, zeros));
      LocalAdjoint(g, m, p, k, zeros, x);
      DotZeros(Vjp(g, m, p, k, x));
      DotZeros(x);
    }
    SamePairings(Jvp(g, m, p, k, zeros), Zeros(g[m].size));
  }

  predicate Above(g: Graph, targets: set<Id>, delta: map<Id, Vector>)
    requires Recorded(g)
  {
    forall v :: v in delta ==> v < |g| && Needs(g, targets, v)
  }

  lemma {:induction false} TangentZero(g: Graph, sel: set<Id>, targets: set<Id>, delta: map<Id, Vector>, m: Id)
    requires Recorded(g) && Perturbs(g, delta) && Above(g, targets, delta) && m < |g| && !Needs(g, targets, m)
    ensures Tangent(g, sel, delta, m) == Zeros(g[m].size)
    decreases m, |g[m].inputs| + 1
  {
    CarriedZero(g, sel, targets, delta, m, |g[m].inputs|);
    AddZeros(Zeros(g[m].size));
    hide Add, Zeros, Needs, Carried;
  }

  lemma {:induction false} CarriedZero(g: Graph, sel: set<Id>, targets: set<Id>, delta: map<Id, Vector>, m: Id,
                                       upto: nat)
    requires Recorded(g) && Perturbs(g, delta) && Above(g, targets, delta) && m < |g| && !Needs(g, targets, m)
    requires upto <= |g[m].inputs|
    ensures Carried(g, sel, delta, m, upto) == Zeros(g[m].size)
    decreases m, upto
  {
    if upto > 0 {
      CarriedZero(g, sel, targets, delta, m, upto - 1);
      var input := g[m].inputs[upto - 1];
      if input.Some? && input.value in sel {
        assert Earlier(g, m);
        assert !Needs(g, targets, input.value);
        TangentZero(g, sel, targets, delta, input.value);
        assert IsEdge(g, m, upto - 1, input.value);
        JvpZeros(g, m, upto - 1, input.value);
        AddZeros(Zeros(g[m].size));
      }
    }
    hide Add, Zeros, Needs, Tangent, Jvp;
  }

  function Everything(g: Graph): (s: set<Id>)
    ensures forall v: Id :: v in s <==> v < |g|
  {
    if g == [] then {} else Below(|g| - 1)
  }

  /** Inputs that are not selected carry nothing. */
  lemma {:induction false} TangentSelected(g: Graph, output: Id, targets: set<Id>, needed: set<Id>,
                                           delta: map<Id, Vector>, m: Id)
    requires Recorded(g) && output < |g| && Perturbs(g, delta) && Above(g, targets, delta)
    requires forall v: Id :: v in needed <==> Selected(g, output, targets, v)
    requires m <= output && Reachable(g, output, m)
    ensures Tangent(g, Everything(g), delta, m) == Tangent(g, needed, delta, m)
    decreases m, |g[m].inputs| + 1
  {
    CarriedSelected(g, output, targets, needed, delta, m, |g[m].inputs|);
    hide Add, Needs, Carried, Reachable, Everything, Above, Perturbs, Selected;
  }

  lemma {:induction false} CarriedSelected(g: Graph, output: Id, targets: set<Id>, needed: set<Id>,
                                           delta: map<Id, Vector>, m: Id, upto: nat)
    requires Recorded(g) && output < |g| && Perturbs(g, delta) && Above(g, targets, delta)
    requires forall v: Id :: v in needed <==> Selected(g, output, targets, v)
    requires m <= output && Reachable(g, output, m) && upto <= |g[m].inputs|
    ensures Carried(g, Everything(g), delta, m, upto) == Carried(g, needed, delta, m, upto)
    decreases m, upto
  {
    hide Add, Zeros, Needs, Tangent, Jvp, Reachable, Above, Perturbs, Fits;
    if upto > 0 {
      CarriedSelected(g, output, targets, needed, delta, m, upto - 1);
      var input := g[m].inputs[upto - 1];
      if input.Some? {
        var k := input.value;
        assert IsEdge(g, m, upto - 1, k);
        ReachableInput(g, output, m, upto - 1, k);
        if k in needed {
          TangentSelected(g, output, targets, needed, delta, k);
        } else {
          TangentZero(g, Everything(g), targets, delta, k);
          JvpZeros(g, m, upto - 1, k);
          AddZeros(Carried(g, needed, delta, m, upto - 1));
        }
      }
    }
  }

  /**
   * Reverse accumulation is the transpose of the forward derivative: the change
   * of the output that changes of nodes at or above targets bring about, paired
   * with the seed, is those changes paired with the gradients.
   */
  lemma Adjoint(g: Graph, output: Id, targets: set<Id>, plan: Plan, seed: Vector, delta: map<Id, Vector>)
    requires Recorded(g) && output < |g| && Plans(g, output, targets, plan) && plan.order != []
    requires |seed| == g[output].size && Perturbs(g, delta) && Above(g, targets, delta)
    ensures var t := Task(g, plan.needed, output, seed);
            && Proper(t)
            && Dot(Tangent(g, Everything(g), delta, output), seed) == Sum(output + 1, n => ChangeAt(t, delta, n))
  {
    hide *;
    PlanIsProper(g, output, targets, plan, seed);
    TangentSelected(g, output, targets, plan.needed, delta, output);
    SelectedAdjoint(Task(g, plan.needed, output, seed), delta);
  }

  lemma PlanIsProper(g: Graph, output: Id, targets: set<Id>, plan: Plan, seed: Vector)
    requires Recorded(g) && output < |g| && Plans(g, output, targets, plan) && plan.order != []
    requires |seed| == g[output].size
    ensures Proper(Task(g, plan.needed, output, seed)) && Reachable(g, output, output)
    ensures forall v: Id :: v in plan.needed <==> Selected(g, output, targets, v)
  {
    DerivativeState.PlanProper(g, output, targets, plan, seed);
    hide Needs, Proper;
  }

  /** The sum over all paths from m down to n of what each brings there, path by path. */
  function PathSum(g: Graph, m: Id, incoming: Vector, n: Id): (v: Vector)
    requires Recorded(g) && m < |g| && n < |g| && |incoming| == g[m].size
    ensures |v| == g[n].size
    decreases m, |g[m].inputs| + 1
  {
    if m == n then incoming else PathsFrom(g, m, incoming, n, |g[m].inputs|)
  }

  function PathsFrom(g: Graph, m: Id, incoming: Vector, n: Id, upto: nat): (v: Vector)
    requires Recorded(g) && m < |g| && n < |g| && |incoming| == g[m].size && upto <= |g[m].inputs|
    ensures |v| == g[n].size
    decreases m, upto
  {
    if upto == 0 then Zeros(g[n].size)
    else
      var rest, input := PathsFrom(g, m, incoming, n, upto - 1), g[m].inputs[upto - 1];
      if input.Some? then
        assert Earlier(g, m) && IsEdge(g, m, upto - 1, input.value);
        Add(rest, PathSum(g, input.value, Vjp(g, m, upto - 1, input.value, incoming), n))
      else rest
  }

  lemma {:induction false} NeedsAbove(g: Graph, n: Id, k: Id)
    requires Recorded(g) && k < |g| && n < |g| && Needs(g, {n}, k)
    ensures n <= k
    decreases k
  {
    assert Earlier(g, k);
    if k != n {
      var p :| 0 <= p < |g[k].inputs| && g[k].inputs[p].Some? && Needs(g, {n}, g[k].inputs[p].value);
      NeedsAbove(g, n, g[k].inputs[p].value);
    }
  }

  /** The change of m by a change of n alone, paired with what comes in, is the change paired with the path sum. */
  lemma {:induction false} PathsPaired(g: Graph, m: Id, incoming: Vector, n: Id, x: Vector)
    requires Recorded(g) && m < |g| && n < |g| && |incoming| == g[m].size && |x| == g[n].size
    ensures Perturbs(g, map[n := x])
    ensures Dot(Tangent(g, Everything(g), map[n := x], m), incoming) == Dot(x, PathSum(g, m, incoming, n))
    decreases m, |g[m].inputs| + 1
  {
    var delta, all := map[n := x], Everything(g);
    var carried := Carried(g, all, delta, m, |g[m].inputs|);
    hide Recorded, Add, Dot, Zeros, Needs;
    if m == n {
      UnchangedBelow(g, all, n, x, |g[m].inputs|);
      AddZeros(x);
    } else {
      PathsFromPaired(g, m, incoming, n, x, |g[m].inputs|);
      AddZeros(carried);
    }
    hide Carried, PathsFrom;
  }

  lemma {:induction false} UnchangedBelow(g: Graph, all: set<Id>, n: Id, x: Vector, upto: nat)
    requires Recorded(g) && n < |g| && |x| == g[n].size && upto <= |g[n].inputs|
    ensures Perturbs(g, map[n := x])
    ensures Carried(g, all, map[n := x], n, upto) == Zeros(g[n].size)
  {
    hide Add, Zeros, Jvp, Fits, Tangent;
    if upto > 0 {
      UnchangedBelow(g, all, n, x, upto - 1);
      var input := g[n].inputs[upto - 1];
      if input.Some? && input.value in all {
        assert Earlier(g, n);
        if Needs(g, {n}, input.value) {
          NeedsAbove(g, n, input.value);
        }
        TangentZero(g, all, {n}, map[n := x], input.value);
        assert IsEdge(g, n, upto - 1, input.value);
        JvpZeros(g, n, upto - 1, input.value);
        AddZeros(Zeros(g[n].size));
      }
    }
  }

  lemma {:induction false} PathsFromPaired(g: Graph, m: Id, incoming: Vector, n: Id, x: Vector, upto: nat)
    requires Recorded(g) && m < |g| && n < |g| && |incoming| == g[m].size && |x| == g[n].size && upto <= |g[m].inputs|
    ensures Perturbs(g, map[n := x])
    ensures Dot(Carried(g, Everything(g), map[n := x], m, upto), incoming) == Dot(x, PathsFrom(g, m, incoming, n, upto))
    decreases m, upto
  {
    hide Add, Dot, Zeros, Jvp, Vjp, Fits, Tangent, PathSum;
    var delta, all := map[n := x], Everything(g);
    if upto == 0 {
      DotZeros(incoming);
      DotZeros(x);
    } else {
      var p, input := upto - 1, g[m].inputs[upto - 1];
      PathsFromPaired(g, m, incoming, n, x, p);
      if input.Some? {
        var k := input.value;
        assert Earlier(g, m) && IsEdge(g, m, p, k);
        var back := Vjp(g, m, p, k, incoming);
        PathsPaired(g, k, back, n, x);
        LocalAdjoint(g, m, p, k, Tangent(g, all, delta, k), incoming);
        DotAdd(Carried(g, all, delta, m, p), Jvp(g, m, p, k, Tangent(g, all, delta, k)), incoming);
        DotAddRight(x, PathsFrom(g, m, incoming, n, p), PathSum(g, k, back, n));
      }
    }
  }

  /** Accumulating every node once gives the sum over all paths. */
  lemma GradientIsPathSum(g: Graph, output: Id, targets: set<Id>, plan: Plan, seed: Vector, n: Id)
    requires Recorded(g) && output < |g| && Plans(g, output, targets, plan) && plan.order != []
    requires |seed| == g[output].size && n in plan.needed
    ensures n <= output && Gradient(g, plan.needed, output, seed, n) == PathSum(g, output, seed, n)
  {
    PlanIsProper(g, output, targets, plan, seed);
    hide Recorded, Plans, Needs, Reachable, Gradient, PathSum, EdgesInto;
    var t := Task(g, plan.needed, output, seed);
    forall x: Vector | |x| == g[n].size ensures Dot(x, Grad(t, n)) == Dot(x, PathSum(g, output, seed, n)) {
      PathsPaired(g, output, seed, n, x);
      Adjoint(g, output, targets, plan, seed, map[n := x]);
      OnlyChange(t, n, x);
    }
    hide Proper;
    SamePairings(Grad(t, n), PathSum(g, output, seed, n));
  }

  lemma OnlyChange(t: Task, n: Id, x: Vector)
    requires Proper(t) && n in t.needed && n < |t.g| && |x| == t.g[n].size
    ensures n <= t.output && Perturbs(t.g, map[n := x])
    ensures Sum(t.output + 1, k => ChangeAt(t, map[n := x], k)) == Dot(x, Grad(t, n))
  {
    hide Dot, Grad, EdgesInto;
    SumUnit(t.output + 1, n, k => ChangeAt(t, map[n := x], k), Dot(x, Grad(t, n)));
  }
}
