/** Selecting the part of a history between an output and the requested nodes, in post-order. */
module DerivativePlan {
  import opened Options
  import opened Sequences
  import opened DerivativeGraph

  predicate HasEdge(g: Graph, m: Id, n: Id) {
    m < |g| && exists p :: 0 <= p < |g[m].inputs| && g[m].inputs[p] == Some(n)
  }

  /** Some chain of edges leads from the output down to n. */
  predicate Reachable(g: Graph, output: Id, n: Id)
    decreases output - n
  {
    n == output || (n < output && exists m :: n < m <= output && HasEdge(g, m, n) && Reachable(g, output, m))
  }

  /** A requested node is n or an ancestor of it. */
  predicate Needs(g: Graph, targets: set<Id>, n: Id)
    requires Recorded(g) && n < |g|
    decreases n
  {
    assert Earlier(g, n);
    n in targets
    || exists p :: 0 <= p < |g[n].inputs| && g[n].inputs[p].Some? && Needs(g, targets, g[n].inputs[p].value)
  }

  predicate Selected(g: Graph, output: Id, targets: set<Id>, n: Id)
    requires Recorded(g) && output < |g|
  {
    n <= output && Reachable(g, output, n) && Needs(g, targets, n)
  }

  lemma ReachableInput(g: Graph, output: Id, m: Id, p: nat, n: Id)
    requires Recorded(g) && output < |g| && m <= output && Reachable(g, output, m) && IsEdge(g, m, p, n)
    ensures n < m && Reachable(g, output, n)
  {
    assert Earlier(g, m);
    assert HasEdge(g, m, n);
  }

  /** Every selected node but the output is an input of a selected node. */
  lemma SelectedParent(g: Graph, output: Id, targets: set<Id>, n: Id) returns (m: Id, p: nat)
    requires Recorded(g) && output < |g| && Selected(g, output, targets, n) && n != output
    ensures Selected(g, output, targets, m) && IsEdge(g, m, p, n) && n < m
  {
    m :| n < m <= output && HasEdge(g, m, n) && Reachable(g, output, m);
    p :| 0 <= p < |g[m].inputs| && g[m].inputs[p] == Some(n);
  }

  datatype Frame = Frame(node: Id, nextInput: nat)

  /** A node on the stack: its first inputs are visited, except for one above it. */
  predicate Stacked(g: Graph, output: Id, visited: set<Id>, frames: seq<Frame>, i: nat)
    requires i < |frames|
  {
    var f := frames[i];
    && f.node < |g| && f.node <= output && Reachable(g, output, f.node) && f.node !in visited
    && f.nextInput <= |g[f.node].inputs|
    && forall p :: 0 <= p < f.nextInput && g[f.node].inputs[p].Some? ==>
         g[f.node].inputs[p].value in visited
         || (i + 1 < |frames| && frames[i + 1].node == g[f.node].inputs[p].value)
  }

  predicate Closed(g: Graph, visited: set<Id>, v: Id)
    requires v < |g|
  {
    forall p :: 0 <= p < |g[v].inputs| && g[v].inputs[p].Some? ==> g[v].inputs[p].value in visited
  }

  /** What the traversal has established. */
  ghost predicate Traversal(g: Graph, output: Id, targets: set<Id>, visited: set<Id>, needed: set<Id>, order: seq<Id>,
                      frames: seq<Frame>)
    requires Recorded(g) && output < |g|
  {
    && (forall v :: v in visited ==> v <= output && Reachable(g, output, v) && Closed(g, visited, v))
    && (forall v: Id :: v in needed <==> v in visited && v <= output && Needs(g, targets, v))
    && (forall v: Id :: v in order <==> v in needed) && Distinct(order)
    && (forall i :: 0 <= i < |frames| ==> Stacked(g, output, visited, frames, i))
    && (forall i, j :: 0 <= i < j < |frames| ==> frames[j].node < frames[i].node)
    && (if frames == [] then output in visited && (order != [] ==> order[|order| - 1] == output)
        else frames[0].node == output)
  }

  lemma Pushed(g: Graph, output: Id, targets: set<Id>, visited: set<Id>, needed: set<Id>, order: seq<Id>,
               frames: seq<Frame>)
    requires Recorded(g) && output < |g| && Traversal(g, output, targets, visited, needed, order, frames)
    requires frames != []
    requires var top := frames[|frames| - 1];
             top.nextInput < |g[top.node].inputs|
    ensures var top := frames[|frames| - 1];
            var input := g[top.node].inputs[top.nextInput];
            var more := frames[|frames| - 1 := top.(nextInput := top.nextInput + 1)];
            if input.Some? && input.value !in visited
            then input.value < top.node
                 && Traversal(g, output, targets, visited, needed, order, more + [Frame(input.value, 0)])
            else Traversal(g, output, targets, visited, needed, order, more)
  {
    var n := |frames| - 1;
    var top := frames[n];
    var input := g[top.node].inputs[top.nextInput];
    var more := frames[n := top.(nextInput := top.nextInput + 1)];
    assert Stacked(g, output, visited, frames, n);
    if input.Some? && input.value !in visited {
      ReachableInput(g, output, top.node, top.nextInput, input.value);
      var pushed := more + [Frame(input.value, 0)];
      forall i | 0 <= i < |pushed| ensures Stacked(g, output, visited, pushed, i) {
        if i < n {
          assert Stacked(g, output, visited, frames, i);
        }
      }
      hide Needs, Reachable, Closed, Stacked;
    } else {
      forall i | 0 <= i < |more| ensures Stacked(g, output, visited, more, i) {
        assert Stacked(g, output, visited, frames, i);
      }
      hide Needs, Reachable, Closed, Stacked;
    }
  }

  /** The test made when a node is finished: requested itself, or above a needed node. */
  predicate IsNeeded(g: Graph, targets: set<Id>, needed: set<Id>, n: Id)
    requires n < |g|
  {
    n in targets || exists p :: 0 <= p < |g[n].inputs| && g[n].inputs[p].Some? && g[n].inputs[p].value in needed
  }

  lemma NeededIsNeeds(g: Graph, output: Id, targets: set<Id>, visited: set<Id>, needed: set<Id>, n: Id)
    requires Recorded(g) && output < |g| && n <= output && Closed(g, visited, n)
    requires forall v: Id :: v in needed <==> v in visited && v <= output && Needs(g, targets, v)
    ensures IsNeeded(g, targets, needed, n) <==> Needs(g, targets, n)
  {
    assert Earlier(g, n);
    if Needs(g, targets, n) && n !in targets {
      var p :| 0 <= p < |g[n].inputs| && g[n].inputs[p].Some? && Needs(g, targets, g[n].inputs[p].value);
      assert g[n].inputs[p].value in needed;
    }
  }

  lemma Finished(g: Graph, output: Id, targets: set<Id>, visited: set<Id>, needed: set<Id>, order: seq<Id>,
                 frames: seq<Frame>)
    requires Recorded(g) && output < |g| && Traversal(g, output, targets, visited, needed, order, frames)
    requires frames != []
    requires frames[|frames| - 1].nextInput == |g[frames[|frames| - 1].node].inputs|
    ensures var n := frames[|frames| - 1].node;
            var selects := IsNeeded(g, targets, needed, n);
            && n !in visited && n <= output
            && Traversal(g, output, targets, visited + {n}, if selects then needed + {n} else needed,
                         if selects then order + [n] else order, frames[..|frames| - 1])
  {
    hide Needs, Reachable, Closed, Stacked, IsNeeded, Distinct;
    var last := |frames| - 1;
    var n := frames[last].node;
    TopFinished(g, output, visited, frames);
    NeededIsNeeds(g, output, targets, visited, needed, n);
    FinishedVisited(g, output, visited, n);
    FinishedStack(g, output, visited, visited + {n}, frames, frames[..last]);
    if last == 0 && order != [] {
      var v := order[0];
      assert v in order && v in needed;
      NeedsUp(g, output, targets, v);
    }
    FinishedOrder(g, output, targets, visited, needed, order, n);
  }

  lemma TopFinished(g: Graph, output: Id, visited: set<Id>, frames: seq<Frame>)
    requires frames != [] && Stacked(g, output, visited, frames, |frames| - 1)
    requires frames[|frames| - 1].nextInput == |g[frames[|frames| - 1].node].inputs|
    ensures var n := frames[|frames| - 1].node;
            n < |g| && n <= output && Reachable(g, output, n) && n !in visited && Closed(g, visited, n)
  {
    hide Reachable;
  }

  lemma FinishedStack(g: Graph, output: Id, visited: set<Id>, visited': set<Id>, frames: seq<Frame>, less: seq<Frame>)
    requires frames != [] && forall i :: 0 <= i < |frames| ==> Stacked(g, output, visited, frames, i)
    requires forall i, j :: 0 <= i < j < |frames| ==> frames[j].node < frames[i].node
    requires less == frames[..|frames| - 1] && visited' == visited + {frames[|frames| - 1].node}
    ensures forall i :: 0 <= i < |less| ==> Stacked(g, output, visited', less, i)
  {
    hide Reachable;
    forall i | 0 <= i < |less| ensures Stacked(g, output, visited', less, i) {
      assert Stacked(g, output, visited, frames, i);
    }
  }

  lemma FinishedOrder(g: Graph, output: Id, targets: set<Id>, visited: set<Id>, needed: set<Id>, order: seq<Id>, n: Id)
    requires Recorded(g) && output < |g| && n <= output && n !in visited
    requires forall v: Id :: v in needed <==> v in visited && v <= output && Needs(g, targets, v)
    requires (forall v: Id :: v in order <==> v in needed) && Distinct(order)
    requires IsNeeded(g, targets, needed, n) <==> Needs(g, targets, n)
    ensures var selects := IsNeeded(g, targets, needed, n);
            var needed', order' := if selects then needed + {n} else needed, if selects then order + [n] else order;
            && (forall v: Id :: v in needed' <==> v in visited + {n} && v <= output && Needs(g, targets, v))
            && (forall v: Id :: v in order' <==> v in needed') && Distinct(order')
  {
    hide Needs, IsNeeded;
    assert n !in order;
  }

  /** What is needed below makes everything above it needed. */
  lemma {:induction false} NeedsUp(g: Graph, output: Id, targets: set<Id>, n: Id)
    requires Recorded(g) && output < |g| && n <= output && Reachable(g, output, n) && Needs(g, targets, n)
    ensures Needs(g, targets, output)
    decreases output - n
  {
    if n != output {
      var m :| n < m <= output && HasEdge(g, m, n) && Reachable(g, output, m);
      var p :| 0 <= p < |g[m].inputs| && g[m].inputs[p] == Some(n);
      assert Needs(g, targets, m);
      NeedsUp(g, output, targets, m);
    }
  }

  lemma FinishedVisited(g: Graph, output: Id, visited: set<Id>, n: Id)
    requires Recorded(g) && output < |g| && n <= output && Reachable(g, output, n) && Closed(g, visited, n)
    requires forall v :: v in visited ==> v <= output && Reachable(g, output, v) && Closed(g, visited, v)
    ensures forall v :: v in visited + {n} ==> v <= output && Reachable(g, output, v) && Closed(g, visited + {n}, v)
  {
    hide Reachable;
  }

  /** Below a visited output everything reachable is visited. */
  lemma {:induction false} AllVisited(g: Graph, output: Id, visited: set<Id>, n: Id)
    requires Recorded(g) && output < |g| && output in visited && n <= output && Reachable(g, output, n)
    requires forall v :: v in visited ==> v <= output && Closed(g, visited, v)
    ensures n in visited
    decreases output - n
  {
    if n != output {
      var m :| n < m <= output && HasEdge(g, m, n) && Reachable(g, output, m);
      AllVisited(g, output, visited, m);
      assert Closed(g, visited, m);
    }
  }

  datatype Plan = Plan(order: seq<Id>, needed: set<Id>, requested: seq<Id>)

  /** The selected nodes, each once, the output last. */
  ghost predicate Plans(g: Graph, output: Id, targets: set<Id>, plan: Plan)
    requires Recorded(g) && output < |g|
  {
    && Distinct(plan.order) && (forall v: Id :: v in plan.order <==> v in plan.needed)
    && (forall v: Id :: v in plan.needed <==> Selected(g, output, targets, v))
    && (plan.order != [] ==> plan.order[|plan.order| - 1] == output)
  }

  function ToSet(s: seq<Id>): set<Id> { set v | v in s }

  function Filter(s: seq<Id>, keep: set<Id>): (r: seq<Id>)
    ensures forall v :: v in r <==> v in s && v in keep
  {
    if s == [] then [] else if s[0] in keep then [s[0]] + Filter(s[1..], keep) else Filter(s[1..], keep)
  }

  /** The plan, or nothing if a requested node was not used and unused ones are not allowed. */
  method MakePlan(g: Graph, output: Id, requested: seq<Id>, allowUnused: bool) returns (plan: Option<Plan>)
    requires Recorded(g) && output < |g|
    ensures plan.None? <==> !allowUnused && exists v :: v in requested && !(v <= output && Reachable(g, output, v))
    ensures plan.Some? ==>
              && Plans(g, output, ToSet(requested), plan.value)
              && plan.value.requested == Filter(requested, plan.value.needed)
  {
    hide Reachable, Needs, Closed, Stacked, Distinct, Below, Filter;
    var targets := ToSet(requested);
    var visited, needed, order := Select(g, output, targets);
    VisitedIsReachable(g, output, targets, visited, needed, order);
    if !allowUnused && exists v :: v in requested && v !in visited {
      return None;
    }
    return Some(Plan(order, needed, Filter(requested, needed)));
  }

  /** The depth-first walk from the output, on an explicit stack. */
  method Select(g: Graph, output: Id, targets: set<Id>) returns (visited: set<Id>, needed: set<Id>, order: seq<Id>)
    requires Recorded(g) && output < |g|
    ensures Traversal(g, output, targets, visited, needed, order, [])
  {
    hide *;
    visited, needed, order := {}, {}, [];
    var frames := [Frame(output, 0)];
    SelectStarts(g, output, targets);
    while frames != []
      invariant Traversal(g, output, targets, visited, needed, order, frames)
      decreases |Below(output) - visited|, if frames == [] then 0 else frames[|frames| - 1].node,
                if frames == [] then 0 else Remaining(g, frames[|frames| - 1])
    {
      TopInside(g, output, targets, visited, needed, order, frames);
      var top := frames[|frames| - 1];
      if top.nextInput < |g[top.node].inputs| {
        var input := g[top.node].inputs[top.nextInput];
        Pushed(g, output, targets, visited, needed, order, frames);
        RemainingIs(g, top);
        frames := frames[|frames| - 1 := top.(nextInput := top.nextInput + 1)];
        if input.Some? && input.value !in visited {
          frames := frames + [Frame(input.value, 0)];
        }
      } else {
        Finished(g, output, targets, visited, needed, order, frames);
        FewerLeft(output, visited, top.node);
        if IsNeeded(g, targets, needed, top.node) {
          needed := needed + {top.node};
          order := order + [top.node];
        }
        visited := visited + {top.node};
        frames := frames[..|frames| - 1];
      }
    }
  }

  lemma SelectStarts(g: Graph, output: Id, targets: set<Id>)
    requires Recorded(g) && output < |g|
    ensures Traversal(g, output, targets, {}, {}, [], [Frame(output, 0)])
  {
    assert Stacked(g, output, {}, [Frame(output, 0)], 0);
  }

  function Below(output: Id): (r: set<Id>)
    ensures forall v: Id :: v in r <==> v <= output
  {
    if output == 0 then {0} else Below(output - 1) + {output}
  }

  function Remaining(g: Graph, f: Frame): int { if f.node < |g| then |g[f.node].inputs| - f.nextInput else 0 }

  lemma RemainingIs(g: Graph, f: Frame)
    requires f.node < |g|
    ensures Remaining(g, f) == |g[f.node].inputs| - f.nextInput
    ensures Remaining(g, f.(nextInput := f.nextInput + 1)) == Remaining(g, f) - 1
  {
  }

  lemma FewerLeft(output: Id, visited: set<Id>, n: Id)
    requires n <= output && n !in visited
    ensures |Below(output) - (visited + {n})| < |Below(output) - visited|
  {
    assert Below(output) - visited == (Below(output) - (visited + {n})) + {n};
  }

  lemma TopInside(g: Graph, output: Id, targets: set<Id>, visited: set<Id>, needed: set<Id>, order: seq<Id>,
                  frames: seq<Frame>)
    requires Recorded(g) && output < |g| && Traversal(g, output, targets, visited, needed, order, frames)
    requires frames != []
    ensures var top := frames[|frames| - 1];
            top.node < |g| && top.nextInput <= |g[top.node].inputs|
  {
    assert Stacked(g, output, visited, frames, |frames| - 1);
  }

  lemma VisitedIsReachable(g: Graph, output: Id, targets: set<Id>, visited: set<Id>, needed: set<Id>, order: seq<Id>)
    requires Recorded(g) && output < |g| && Traversal(g, output, targets, visited, needed, order, [])
    ensures forall v: Id :: v in visited <==> v <= output && Reachable(g, output, v)
    ensures forall v: Id :: v in needed <==> Selected(g, output, targets, v)
  {
    forall v: Id | v <= output && Reachable(g, output, v) ensures v in visited {
      AllVisited(g, output, visited, v);
    }
    hide Reachable, Needs, Closed, Stacked;
  }
}
