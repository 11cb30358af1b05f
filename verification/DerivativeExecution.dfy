/** Reverse accumulation over a plan. */
module DerivativeExecution {
  import opened Options
  import opened Sequences
  import opened Tensors
  import opened DerivativeGraph
  import opened DerivativePlan
  import opened DerivativeGradients
  import opened DerivativeState
  import opened GradientResources
  import opened ReadyNodes

  function TaskOf(g: Graph, plan: Plan, output: Id, seed: Vector): Task { Task(g, plan.needed, output, seed) }

  function CountOf(pending: map<Id, nat>, n: Id): nat { if n in pending then pending[n] else 0 }

  /** The contributions that each needed node waits for. */
  method CountPending(g: Graph, order: seq<Id>, needed: set<Id>, ghost output: Id) returns (pending: map<Id, nat>)
    requires Recorded(g) && output < |g| && Distinct(order)
    requires forall n :: n in order <==> n in needed
    requires forall n :: n in needed ==> n <= output
    ensures forall n :: n in needed ==> CountOf(pending, n) == EdgesInto(g, needed, n, output)
  {
    pending := map[];
    ghost var seen: set<Id> := {};
    var i := 0;
    NoneCounted(g, needed, output);
    while i < |order|
      invariant 0 <= i <= |order|
      invariant seen == Members(order, i)
      invariant forall n :: n in needed ==> CountOf(pending, n) == EdgesInto(g, seen, n, output)
    {
      assert order[i] in order;
      pending := CountNode(g, needed, order[i], pending);
      MembersNext(order, i);
      CountedMore(g, needed, seen, order[i], output);
      seen := seen + {order[i]};
      i := i + 1;
      hide EdgesInto, EdgesFrom;
    }
    MembersAll(order, needed);
  }

  lemma CountedMore(g: Graph, needed: set<Id>, seen: set<Id>, m: Id, output: Id)
    requires Recorded(g) && output < |g| && m <= output && m !in seen && forall n :: n in needed ==> n <= output
    ensures forall n :: n in needed ==>
              EdgesInto(g, seen + {m}, n, output) == EdgesInto(g, seen, n, output) + EdgesFrom(g, m, n, |g[m].inputs|)
  {
    forall n | n in needed
      ensures EdgesInto(g, seen + {m}, n, output) == EdgesInto(g, seen, n, output) + EdgesFrom(g, m, n, |g[m].inputs|)
    {
      EdgesMore(g, seen, n, output, m);
      if m <= n {
        NoEdgeUp(g, m, n, |g[m].inputs|);
      }
    }
    hide EdgesInto, EdgesFrom;
  }

  /** The elements before position i. */
  ghost function Members(s: seq<Id>, i: nat): set<Id>
    requires i <= |s|
  {
    set v | v in s[..i]
  }

  lemma MembersNext(s: seq<Id>, i: nat)
    requires i < |s| && Distinct(s)
    ensures Members(s, i + 1) == Members(s, i) + {s[i]} && s[i] !in Members(s, i)
  {
    assert s[..i + 1] == s[..i] + [s[i]];
  }

  lemma MembersAll(s: seq<Id>, all: set<Id>)
    requires forall v: Id :: v in s <==> v in all
    ensures Members(s, |s|) == all
  {
    assert s[..|s|] == s;
  }

  lemma NoneCounted(g: Graph, needed: set<Id>, output: Id)
    requires output < |g| && forall n :: n in needed ==> n <= output
    ensures forall n :: n in needed ==> EdgesInto(g, {}, n, output) == 0
  {
    forall n | n in needed ensures EdgesInto(g, {}, n, output) == 0 {
      NoneCountedFor(g, n, output);
    }
  }

  lemma {:induction false} NoneCountedFor(g: Graph, n: Id, m: Id)
    requires n <= m < |g|
    ensures EdgesInto(g, {}, n, m) == 0
    decreases m
  {
    if m > n {
      NoneCountedFor(g, n, m - 1);
    }
  }

  method CountNode(g: Graph, needed: set<Id>, m: Id, before: map<Id, nat>)
    returns (pending: map<Id, nat>)
    requires m < |g|
    ensures forall n :: n in needed ==> CountOf(pending, n) == CountOf(before, n) + EdgesFrom(g, m, n, |g[m].inputs|)
  {
    pending := before;
    for p := 0 to |g[m].inputs|
      invariant forall n :: n in needed ==> CountOf(pending, n) == CountOf(before, n) + EdgesFrom(g, m, n, p)
    {
      var input := g[m].inputs[p];
      if input.Some? && input.value in needed {
        pending := pending[input.value := CountOf(pending, input.value) + 1];
      }
    }
  }

  /** The bytes reserved before a run. */
  method GradientBytes(g: Graph, plan: Plan, ghost output: Id, ghost targets: set<Id>,
                       explicitSeed: bool) returns (bytes: nat)
    requires Recorded(g) && output < |g| && Plans(g, output, targets, plan) && plan.order != []
    ensures bytes >= 4 * (2 * AllEdgeSizes(g, plan.needed, plan.needed, output) + g[output].size)
                     + if explicitSeed then 0 else 4
  {
    hide *;
    PlanParts(g, output, targets, plan);
    var nodeElements, edgeElements := 0, 0;
    var i := 0;
    MembersNone(g, plan.order, plan.needed, output);
    while i < |plan.order|
      invariant 0 <= i <= |plan.order| && nodeElements >= 0
      invariant edgeElements == AllEdgeSizes(g, plan.needed, Members(plan.order, i), output)
    {
      var m := plan.order[i];
      assert m in plan.order;
      MembersNext(plan.order, i);
      AllEdgeSizesMore(g, plan.needed, Members(plan.order, i), output, m);
      nodeElements := nodeElements + g[m].size;
      var edges := NodeEdges(g, plan.needed, m);
      edgeElements := edgeElements + edges;
      i := i + 1;
    }
    MembersAll(plan.order, plan.needed);
    var outputElements := g[plan.order[|plan.order| - 1]].size;
    var bound := edgeElements * 8 + outputElements * 4;
    bytes := (if explicitSeed then 0 else 4) + if nodeElements * 20 >= bound then nodeElements * 20 else bound;
  }

  method NodeEdges(g: Graph, needed: set<Id>, m: Id) returns (elements: nat)
    requires Recorded(g) && m < |g|
    ensures elements == EdgeSizes(g, needed, m, |g[m].inputs|)
  {
    elements := 0;
    for p := 0 to |g[m].inputs|
      invariant elements == EdgeSizes(g, needed, m, p)
    {
      assert Earlier(g, m);
      var input := g[m].inputs[p];
      if input.Some? && input.value in needed {
        elements := elements + g[input.value].size;
      }
    }
    hide Recorded;
  }

  lemma MembersNone(g: Graph, order: seq<Id>, needed: set<Id>, output: Id)
    requires Recorded(g) && output < |g|
    ensures AllEdgeSizes(g, needed, Members(order, 0), output) == 0
  {
    AllEdgeSizesNone(g, needed, output);
    assert Members(order, 0) == {};
  }

  /** Some input is followed: any present one, or only needed ones. */
  predicate Traversed(g: Graph, needed: set<Id>, selected: bool, n: Id)
    requires n < |g|
  {
    exists p :: 0 <= p < |g[n].inputs| && g[n].inputs[p].Some? && (selected || g[n].inputs[p].value in needed)
  }

  /** Executing the recipe uses it up. */
  predicate Consumes(g: Graph, n: Id)
    requires n < |g|
  {
    g[n].saved != [] || g[n].recipe.CopySlices?
  }

  datatype Received = Received(node: Id, incoming: Vector)

  /** A run that ended at a node, or whose results could not be made, or that completed. */
  datatype Outcome =
    | Completed(results: seq<Gradient>)
    | ConsumedHistory(node: Id)
    | InvalidSavedValue(node: Id)
    | OperationFailed(node: Id)
    | ResultsFailed

  /** What has been received so far: each finished node once, with its whole gradient. */
  ghost predicate Report(t: Task, done: set<Id>, received: seq<Received>)
    requires Proper(t)
  {
    && (forall i, j :: 0 <= i < j < |received| ==> received[i].node != received[j].node)
    && (forall n: Id :: n in done <==> exists i :: 0 <= i < |received| && received[i].node == n)
    && (forall i :: 0 <= i < |received| ==>
          received[i].node <= t.output && received[i].incoming == Grad(t, received[i].node))
  }

  lemma ReportMore(t: Task, done: set<Id>, received: seq<Received>, n: Id)
    requires Proper(t) && Report(t, done, received) && n !in done && n <= t.output
    ensures Report(t, done + {n}, received + [Received(n, Grad(t, n))])
  {
    var r := received + [Received(n, Grad(t, n))];
    forall k: Id ensures k in done + {n} <==> exists i :: 0 <= i < |r| && r[i].node == k {
      if k in done {
        var i :| 0 <= i < |received| && received[i].node == k;
        assert r[i].node == k;
      }
      if k == n {
        assert r[|received|].node == n;
      }
    }
    hide Proper, Grad;
  }

  /** No node is received while another one can still pass something to it. */
  predicate Ordered(g: Graph, received: seq<Received>) {
    forall i, j :: 0 <= i <= j < |received| ==> !HasEdge(g, received[j].node, received[i].node)
  }

  lemma OrderedMore(t: Task, done: set<Id>, requested: set<Id>, gradients: map<Id, Vector>, pending: map<Id, nat>,
                    received: seq<Received>, m: Id)
    requires State(t, done, t.output, 0, requested, gradients, pending) && m in t.needed && m !in done
    requires Report(t, done, received) && Ordered(t.g, received)
    ensures Ordered(t.g, received + [Received(m, Grad(t, m))])
  {
    var r := received + [Received(m, Grad(t, m))];
    forall i, j | 0 <= i <= j < |r| ensures !HasEdge(t.g, r[j].node, r[i].node) {
      if j == |received| {
        if i < j {
          assert received[i].node in done;
          NoEdgeDown(t, done, requested, gradients, pending, m, r[i].node);
        } else {
          assert Earlier(t.g, m);
        }
      }
    }
    hide Report, State, HasEdge, Grad;
  }

  lemma NoEdgeDown(t: Task, done: set<Id>, requested: set<Id>, gradients: map<Id, Vector>, pending: map<Id, nat>,
                   m: Id, n: Id)
    requires State(t, done, t.output, 0, requested, gradients, pending) && m in t.needed && m !in done && n in done
    ensures !HasEdge(t.g, m, n)
  {
    assert DerivativeState.Closed(t, done, requested, gradients, n);
    if HasEdge(t.g, m, n) {
      var p :| 0 <= p < |t.g[m].inputs| && t.g[m].inputs[p] == Some(n);
      assert Earlier(t.g, m);
      EdgeIntoCounted(t.g, t.needed - done, m, p, n, t.output);
    }
    hide Holds;
  }

  /** The recipe of n may be executed. */
  predicate Runs(g: Graph, needed: set<Id>, selected: bool, consumed: set<Id>, stale: set<Id>, n: Id) {
    n < |g| && Traversed(g, needed, selected, n) ==> n !in consumed && n !in stale
  }

  /** The nodes whose history is used up by executing all of s. */
  function UsedBy(g: Graph, needed: set<Id>, selected: bool, s: set<Id>): set<Id> {
    set n | n in s && n < |g| && Traversed(g, needed, selected, n) && Consumes(g, n)
  }

  function Handles(results: seq<Gradient>): set<nat> { set r | r in results :: r.handle }

  /** One tensor of its own for every request, with the gradient of the requested node. */
  ghost predicate Answers(t: Task, requested: seq<Id>, results: seq<Gradient>)
    requires Proper(t)
  {
    && |results| == |requested|
    && (forall i :: 0 <= i < |results| ==> requested[i] <= t.output && results[i].value == Grad(t, requested[i]))
    && (forall i, j :: 0 <= i < j < |results| ==> results[i].handle != results[j].handle)
  }

  /** What stays the same during a run. */
  datatype Run = Run(t: Task, requested: set<Id>, selected: bool, stale: set<Id>, consumed: set<Id>, before: set<nat>,
                     seed: nat)

  /** Between two nodes. */
  ghost predicate Running(run: Run, done: set<Id>, gradients: map<Id, Gradient>, pending: map<Id, nat>,
                          received: seq<Received>, temporaries: set<nat>, touched: set<Id>, taken: nat,
                          heap: multiset<Id>, consumed: set<Id>, open: set<nat>)
  {
    var t := run.t;
    && State(t, done, t.output, 0, run.requested, Values(gradients), pending)
    && done <= t.needed && Readied(t, done, {}, pending, heap)
    && Report(t, done, received) && Ordered(t.g, received)
    && Owned(gradients, temporaries, open, run.before, run.seed)
    && Accounted(t, done, t.output, 0, done, gradients, touched, taken)
    && AllRun(run, done)
    && consumed == run.consumed + UsedBy(t.g, t.needed, run.selected, done)
  }

  predicate AllRun(run: Run, done: set<Id>) {
    forall n :: n in done ==> Runs(run.t.g, run.t.needed, run.selected, run.consumed, run.stale, n)
  }

  lemma TaskIs(g: Graph, plan: Plan, output: Id, seed: Vector)
    ensures TaskOf(g, plan, output, seed) == Task(g, plan.needed, output, seed)
  {
  }

  lemma PlanParts(g: Graph, output: Id, targets: set<Id>, plan: Plan)
    requires Recorded(g) && output < |g| && Plans(g, output, targets, plan) && plan.order != []
    ensures Distinct(plan.order) && plan.order[|plan.order| - 1] == output
    ensures forall n :: n in plan.order <==> n in plan.needed
    ensures forall n :: n in plan.needed ==> n <= output
  {
    hide Reachable, Needs;
  }

  lemma Started(run: Run, pending: map<Id, nat>, seed: Gradient, heap: multiset<Id>)
    requires Proper(run.t) && heap == multiset{run.t.output} && seed.value == run.t.seed && seed.handle == run.seed
    requires run.seed in run.before
    requires forall n :: n in run.t.needed ==> CountOf(pending, n) == EdgesInto(run.t.g, run.t.needed, n, run.t.output)
    ensures Running(run, {}, map[run.t.output := seed], pending, [], {}, {}, 0, heap, run.consumed, run.before)
  {
    var gradients := map[run.t.output := seed];
    assert Values(gradients) == map[run.t.output := run.t.seed];
    Initially(run.t, run.requested, pending);
    AccountedInitially(run.t, seed);
    assert UsedBy(run.t.g, run.t.needed, run.selected, {}) == {};
    hide State, Readied, Accounted, Proper, EdgesInto;
  }

  /** The popped node has its whole gradient, which is received. */
  lemma TurnBegins(run: Run, done: set<Id>, gradients: map<Id, Gradient>, pending: map<Id, nat>,
                   received: seq<Received>,
                   temporaries: set<nat>, touched: set<Id>, taken: nat, heap: multiset<Id>, consumed: set<Id>,
                   open: set<nat>, m: Id, left: multiset<Id>)
    requires Running(run, done, gradients, pending, received, temporaries, touched, taken, heap, consumed, open)
    requires m in heap && left == heap - multiset{m}
    ensures Proper(run.t) && m <= run.t.output < |run.t.g| && m in run.t.needed && m !in done
    ensures m in gradients && gradients[m].value == Grad(run.t, m)
    ensures State(run.t, done, m, 0, run.requested, Values(gradients), pending)
    ensures Readied(run.t, done, {m}, pending, left)
    ensures EdgesInto(run.t.g, run.t.needed - done, m, run.t.output) == 0
    ensures var next := received + [Received(m, gradients[m].value)];
            Report(run.t, done + {m}, next) && Ordered(run.t.g, next)
    ensures Owned(gradients, temporaries, open, run.before, run.seed)
    ensures Accounted(run.t, done, m, 0, done + {m}, gradients, touched, taken + run.t.g[m].size)
    ensures Accounted(run.t, done, m, 0, done + {m}, gradients, touched, taken)
  {
    hide *;
    RunningParts(run, done, gradients, pending, received, temporaries, touched, taken, heap, consumed, open);
    var t := run.t;
    StateProper(t, done, t.output, 0, run.requested, Values(gradients), pending);
    Popped(t, done, pending, heap, left, m);
    ReadyParts(t, done, pending, m);
    ReadyHolds(t, done, run.requested, Values(gradients), pending, m);
    ValuesAt(gradients, m);
    Begin(t, done, run.requested, Values(gradients), pending, m);
    ReportMore(t, done, received, m);
    OrderedMore(t, done, run.requested, Values(gradients), pending, received, m);
    AccountedReceived(t, done, m, gradients, touched, taken);
  }

  lemma ReadyParts(t: Task, done: set<Id>, pending: map<Id, nat>, m: Id)
    requires IsReady(t, done, pending, m)
    ensures m in t.needed && m !in done
  {
  }

  lemma RunningParts(run: Run, done: set<Id>, gradients: map<Id, Gradient>, pending: map<Id, nat>,
                     received: seq<Received>,
                     temporaries: set<nat>, touched: set<Id>, taken: nat, heap: multiset<Id>, consumed: set<Id>,
                     open: set<nat>)
    requires Running(run, done, gradients, pending, received, temporaries, touched, taken, heap, consumed, open)
    ensures State(run.t, done, run.t.output, 0, run.requested, Values(gradients), pending)
    ensures Proper(run.t) && run.t.output < |run.t.g| && done <= run.t.needed && Readied(run.t, done, {}, pending, heap)
    ensures Report(run.t, done, received) && Ordered(run.t.g, received)
    ensures Owned(gradients, temporaries, open, run.before, run.seed)
    ensures Accounted(run.t, done, run.t.output, 0, done, gradients, touched, taken)
    ensures AllRun(run, done) && consumed == run.consumed + UsedBy(run.t.g, run.t.needed, run.selected, done)
  {
    hide Holds, DerivativeState.Closed, Readied, Report, Ordered, Owned, Accounted, AllRun, UsedBy;
  }

  /** A run that ended at a node, with everything before it done. */
  ghost predicate Failed(run: Run, outcome: Outcome, received: seq<Received>, temporaries: set<nat>, taken: nat,
                         consumed: set<Id>, open: set<nat>)
  {
    var t := run.t;
    && !outcome.Completed? && !outcome.ResultsFailed? && received != []
    && received[|received| - 1].node == outcome.node && Proper(t)
    && Report(t, Names(received), received) && Ordered(t.g, received) && Names(received) <= t.needed
    && Spent(t, taken) && outcome.node in t.needed
    && (outcome.OperationFailed? <==> Runs(t.g, t.needed, run.selected, run.consumed, run.stale, outcome.node))
    && (!outcome.OperationFailed? ==> (outcome.ConsumedHistory? <==> outcome.node in run.consumed))
    && consumed == run.consumed + UsedBy(t.g, t.needed, run.selected, Names(received[..|received| - 1]))
    && temporaries <= open && open - temporaries == run.before
  }

  lemma TurnFails(run: Run, done: set<Id>, gradients: map<Id, Gradient>, temporaries: set<nat>, touched: set<Id>,
                  taken: nat, consumed: set<Id>, open: set<nat>, m: Id, received: seq<Received>, outcome: Outcome)
    requires Proper(run.t) && m <= run.t.output && m in run.t.needed && m !in done && done <= run.t.needed
    requires Traversed(run.t.g, run.t.needed, run.selected, m) && (m in consumed || m in run.stale)
    requires Owned(gradients, temporaries, open, run.before, run.seed)
    requires Accounted(run.t, done, m, 0, done + {m}, gradients, touched, taken)
    requires consumed == run.consumed + UsedBy(run.t.g, run.t.needed, run.selected, done)
    requires received != [] && Report(run.t, done, received[..|received| - 1]) && Report(run.t, done + {m}, received)
    requires Ordered(run.t.g, received) && received[|received| - 1].node == m
    requires outcome == if m in consumed then ConsumedHistory(m) else InvalidSavedValue(m)
    ensures Failed(run, outcome, received, temporaries, taken, consumed, open)
  {
    OwnedOpen(gradients, temporaries, open, run.before, run.seed);
    ReportNames(run.t, done, received[..|received| - 1]);
    ReportNames(run.t, done + {m}, received);
    AccountedBound(run.t, done, m, 0, done + {m}, gradients, touched, taken);
    hide Owned, Report, Accounted, Spent, Names, Consumes, Traversed, Ordered, Proper;
  }

  /** An operation that fails while a node passes its gradient back ends the run too. */
  lemma TurnBreaks(run: Run, done: set<Id>, gradients: map<Id, Gradient>, temporaries: set<nat>, taken: nat,
                   consumed: set<Id>, open: set<nat>, m: Id, received: seq<Received>)
    requires Proper(run.t) && m in run.t.needed && m !in done && done <= run.t.needed
    requires Runs(run.t.g, run.t.needed, run.selected, run.consumed, run.stale, m)
    requires Owned(gradients, temporaries, open, run.before, run.seed) && Spent(run.t, taken)
    requires consumed == run.consumed + UsedBy(run.t.g, run.t.needed, run.selected, done)
    requires received != [] && Report(run.t, done, received[..|received| - 1]) && Report(run.t, done + {m}, received)
    requires Ordered(run.t.g, received) && received[|received| - 1].node == m
    ensures Failed(run, OperationFailed(m), received, temporaries, taken, consumed, open)
  {
    OwnedOpen(gradients, temporaries, open, run.before, run.seed);
    ReportNames(run.t, done, received[..|received| - 1]);
    ReportNames(run.t, done + {m}, received);
    hide Owned, Report, Spent, Names, Consumes, Traversed, Ordered, Proper, Runs;
  }

  /** A failed run in its parts. */
  lemma FailedParts(run: Run, outcome: Outcome, received: seq<Received>, temporaries: set<nat>, taken: nat,
                    consumed: set<Id>, open: set<nat>)
    requires Failed(run, outcome, received, temporaries, taken, consumed, open)
    ensures Proper(run.t) && Report(run.t, Names(received), received) && Ordered(run.t.g, received)
    ensures Recorded(run.t.g) && run.t.output < |run.t.g| && Names(received) <= run.t.needed
    ensures Spent(run.t, taken)
    ensures !outcome.Completed? && !outcome.ResultsFailed? && received != []
    ensures received[|received| - 1].node == outcome.node
    ensures outcome.node in run.t.needed
    ensures outcome.OperationFailed?
            <==> Runs(run.t.g, run.t.needed, run.selected, run.consumed, run.stale, outcome.node)
    ensures !outcome.OperationFailed? ==> (outcome.ConsumedHistory? <==> outcome.node in run.consumed)
    ensures consumed == run.consumed
                        + UsedBy(run.t.g, run.t.needed, run.selected, Names(received[..|received| - 1]))
    ensures temporaries <= open && open - temporaries == run.before
  {
    hide Report, Ordered, Names, Spent, UsedBy, Runs, EdgesInto;
  }

  lemma UsedMore(g: Graph, needed: set<Id>, selected: bool, done: set<Id>, m: Id)
    requires m < |g|
    ensures UsedBy(g, needed, selected, done + {m})
         == UsedBy(g, needed, selected, done) + if Traversed(g, needed, selected, m) && Consumes(g, m) then {m} else {}
  {
    hide Traversed, Consumes;
  }

  lemma AllRunMore(run: Run, done: set<Id>, m: Id)
    requires AllRun(run, done) && Runs(run.t.g, run.t.needed, run.selected, run.consumed, run.stale, m)
    ensures AllRun(run, done + {m})
  {
    hide Runs;
  }

  /** The node has passed everything back. */
  lemma TurnEnds(run: Run, done: set<Id>, passed: map<Id, Gradient>, gradients: map<Id, Gradient>,
                 pending: map<Id, nat>, received: seq<Received>, temporaries: set<nat>, touched: set<Id>, taken: nat,
                 heap: multiset<Id>, earlier: set<Id>, consumed: set<Id>, open: set<nat>, m: Id)
    requires Proper(run.t) && m <= run.t.output < |run.t.g| && m in run.t.needed && m !in done && done <= run.t.needed
    requires State(run.t, done, m, |run.t.g[m].inputs|, run.requested, Values(passed), pending)
    requires m in passed && passed[m].value == Grad(run.t, m)
    requires Readied(run.t, done, {m}, pending, heap)
    requires EdgesInto(run.t.g, run.t.needed - done, m, run.t.output) == 0
    requires Report(run.t, done + {m}, received) && Ordered(run.t.g, received)
    requires gradients == if m in run.requested then passed else passed - {m}
    requires Owned(gradients, temporaries, open, run.before, run.seed)
    requires Accounted(run.t, done, m, |run.t.g[m].inputs|, done + {m}, passed, touched, taken)
    requires AllRun(run, done) && Runs(run.t.g, run.t.needed, run.selected, run.consumed, run.stale, m)
    requires earlier == run.consumed + UsedBy(run.t.g, run.t.needed, run.selected, done)
    requires consumed == earlier
             + if Traversed(run.t.g, run.t.needed, run.selected, m) && Consumes(run.t.g, m) then {m} else {}
    ensures Running(run, done + {m}, gradients, pending, received, temporaries, touched, taken, heap, consumed, open)
  {
    hide State, Readied, Report, Ordered, Owned, Accounted, AllRun, Runs, UsedBy, Traversed, Consumes, EdgesInto,
         Values;
    ValuesAt(passed, m);
    ValuesUnset(passed, m);
    End(run.t, done, m, run.requested, Values(passed), pending);
    Retired(run.t, done, m, pending, heap);
    AccountedEnd(run.t, done, m, passed, gradients, touched, taken);
    AllRunMore(run, done, m);
    UsedMore(run.t.g, run.t.needed, run.selected, done, m);
  }

  /** With nothing ready everything has been received, and the requested nodes hold their gradients. */
  lemma RunEnds(run: Run, done: set<Id>, gradients: map<Id, Gradient>, pending: map<Id, nat>, received: seq<Received>,
                temporaries: set<nat>, touched: set<Id>, taken: nat, heap: multiset<Id>, consumed: set<Id>,
                open: set<nat>)
    requires Running(run, done, gradients, pending, received, temporaries, touched, taken, heap, consumed, open)
    requires heap == multiset{}
    ensures Proper(run.t) && done == run.t.needed && Names(received) == run.t.needed
    ensures Report(run.t, Names(received), received) && Ordered(run.t.g, received) && AllRun(run, run.t.needed)
    ensures temporaries <= open && open - temporaries == run.before
    ensures Spent(run.t, taken)
    ensures consumed == run.consumed + UsedBy(run.t.g, run.t.needed, run.selected, run.t.needed)
    ensures forall n :: n in run.requested && n in run.t.needed ==>
              n <= run.t.output && n in gradients && gradients[n].value == Grad(run.t, n)
  {
    hide *;
    RunningParts(run, done, gradients, pending, received, temporaries, touched, taken, heap, consumed, open);
    StateProper(run.t, done, run.t.output, 0, run.requested, Values(gradients), pending);
    NoneReady(run.t, done, pending, heap);
    SomethingReady(run.t, done, run.requested, Values(gradients), pending);
    ReportNames(run.t, done, received);
    OwnedOpen(gradients, temporaries, open, run.before, run.seed);
    AccountedFinally(run.t, gradients, touched, taken);
    forall n | n in run.requested && n in run.t.needed
      ensures n <= run.t.output && n in gradients && gradients[n].value == Grad(run.t, n)
    {
      KeptClosed(run.t, done, run.requested, Values(gradients), pending, n);
      ValuesAt(gradients, n);
    }
  }

  lemma NoneReady(t: Task, done: set<Id>, pending: map<Id, nat>, heap: multiset<Id>)
    requires Readied(t, done, {}, pending, heap) && heap == multiset{}
    ensures forall n: Id :: !IsReady(t, done, pending, n)
  {
    forall n: Id ensures !IsReady(t, done, pending, n) {
      assert heap[n] == if IsReady(t, done, pending, n) && n !in {} then 1 else 0;
    }
    hide IsReady;
  }

  lemma KeptClosed(t: Task, done: set<Id>, requested: set<Id>, gradients: map<Id, Vector>, pending: map<Id, nat>, n: Id)
    requires State(t, done, t.output, 0, requested, gradients, pending) && n in done && n in requested
    ensures Proper(t) && n <= t.output && n in gradients && gradients[n] == Grad(t, n)
  {
    assert DerivativeState.Closed(t, done, requested, gradients, n);
    hide Holds, EdgesInto;
  }

  lemma AnswersMore(t: Task, requests: seq<Id>, i: nat, results: seq<Gradient>, result: Gradient)
    requires Proper(t) && i < |requests| && Answers(t, requests[..i], results) && result.handle !in Handles(results)
    requires requests[i] <= t.output && result.value == Grad(t, requests[i])
    ensures Answers(t, requests[..i + 1], results + [result])
    ensures Handles(results + [result]) == Handles(results) + {result.handle}
  {
    hide Proper, Grad;
    assert requests[..i + 1] == requests[..i] + [requests[i]];
    assert forall j :: 0 <= j < |results| ==> results[j] in results;
    forall h: nat ensures h in Handles(results + [result]) <==> h in Handles(results) + {result.handle} {
      if h in Handles(results) {
        var r :| r in results && r.handle == h;
        assert r in results + [result];
      }
      assert result in results + [result];
    }
  }

  lemma MayRun(run: Run, consumed: set<Id>, done: set<Id>, m: Id)
    requires consumed == run.consumed + UsedBy(run.t.g, run.t.needed, run.selected, done) && m < |run.t.g|
    requires Traversed(run.t.g, run.t.needed, run.selected, m) ==> m !in consumed && m !in run.stale
    ensures Runs(run.t.g, run.t.needed, run.selected, run.consumed, run.stale, m)
  {
    hide Traversed, UsedBy;
  }

  lemma RunsAll(run: Run)
    requires AllRun(run, run.t.needed)
    ensures forall n :: n in run.t.needed ==> Runs(run.t.g, run.t.needed, run.selected, run.consumed, run.stale, n)
  {
    hide Runs;
  }

  lemma FewerPending(needed: set<Id>, done: set<Id>, m: Id)
    requires m in needed && m !in done
    ensures |needed - (done + {m})| < |needed - done|
  {
    assert needed - done == (needed - (done + {m})) + {m};
  }

  lemma RequestsKnown(plan: Plan, collect: bool, requested: set<Id>, requests: seq<Id>)
    requires requested == if collect then ToSet(plan.requested) else {}
    requires requests == if collect then plan.requested else []
    requires forall v :: v in plan.requested ==> v in plan.needed
    ensures forall v :: v in requests ==> v in requested && v in plan.needed
  {
  }

  function Names(received: seq<Received>): set<Id> { set r | r in received :: r.node }

  lemma ReportNames(t: Task, done: set<Id>, received: seq<Received>)
    requires Proper(t) && Report(t, done, received)
    ensures Names(received) == done
  {
    forall n: Id ensures n in Names(received) <==> n in done {
      if n in done {
        var i :| 0 <= i < |received| && received[i].node == n;
        assert received[i] in received;
      }
      if n in Names(received) {
        var r :| r in received && r.node == n;
        var i :| 0 <= i < |received| && received[i] == r;
        assert received[i].node == n;
      }
    }
    hide Proper, Grad;
  }

  /** Nodes, in the source's terms, whose saved operands were released by an earlier run. */
  class DerivativeHistory {
    const g: Graph
    var consumed: set<Id>

    constructor (g: Graph)
      ensures this.g == g && consumed == {}
    {
      this.g := g;
      consumed := {};
    }

    /**
     * Passes the gradient of m back along its selected edges.
     */
    method PassBack(ghost t: Task, needed: set<Id>, m: Id, incoming: Vector, ghost done: set<Id>,
                    ghost requested: set<Id>, ghost before: set<nat>, ghost seed: nat, ready: ReadyDerivativeNodes,
                    operations: GradientHandles, gradients: map<Id, Gradient>, pending: map<Id, nat>,
                    temporaries: set<nat>, ghost touched: set<Id>, taken: nat)
      returns (failed: bool, gradients': map<Id, Gradient>, pending': map<Id, nat>, temporaries': set<nat>,
               ghost touched': set<Id>, taken': nat)
      requires Proper(t) && m <= t.output && t.g == g && t.needed == needed && m < |g| && m in needed && m !in done
      requires done <= needed && !operations.failed
      requires State(t, done, m, 0, requested, Values(gradients), pending) && incoming == Grad(t, m)
      requires m in gradients && gradients[m].value == incoming
      requires ready.g == g && Heap(g, ready.heap) && Readied(t, done, {m}, pending, multiset(ready.heap))
      requires operations.Valid() && Owned(gradients, temporaries, operations.open, before, seed)
      requires Accounted(t, done, m, 0, done + {m}, gradients, touched, taken)
      modifies ready, operations
      ensures Heap(g, ready.heap) && operations.Valid() && failed == operations.failed
      ensures Owned(gradients', temporaries', operations.open, before, seed) && Spent(t, taken')
      ensures !failed ==>
                && State(t, done, m, |g[m].inputs|, requested, Values(gradients'), pending')
                && m in gradients' && gradients'[m] == gradients[m]
                && Readied(t, done, {m}, pending', multiset(ready.heap))
                && Accounted(t, done, m, |g[m].inputs|, done + {m}, gradients', touched', taken')
    {
      hide *;
      failed := false;
      gradients', pending', temporaries', touched', taken' := gradients, pending, temporaries, touched, taken;
      var position := 0;
      while position < |g[m].inputs|
        invariant position <= |g[m].inputs| && !operations.failed && !failed
        invariant State(t, done, m, position, requested, Values(gradients'), pending')
        invariant m in gradients' && gradients'[m] == gradients[m]
        invariant Heap(g, ready.heap) && Readied(t, done, {m}, pending', multiset(ready.heap))
        invariant operations.Valid() && Owned(gradients', temporaries', operations.open, before, seed)
        invariant Accounted(t, done, m, position, done + {m}, gradients', touched', taken')
      {
        StateProper(t, done, m, position, requested, Values(gradients'), pending');
        var input := g[m].inputs[position];
        if input.None? || input.value !in needed {
          Skip(t, done, m, position, position + 1, requested, Values(gradients'), pending');
          AccountedSkip(t, done, m, position, position + 1, done + {m}, gradients', touched', taken');
        } else {
          var n := input.value;
          TargetOpen(t, done, m, position, requested, Values(gradients'), pending', n);
          EdgeHere(t, m, position, n);
          var value := Vjp(g, m, position, n, incoming);
          DerivativeState.Pass(t, done, m, position, position + 1, requested, Values(gradients'), pending', n, value);
          Arrived(t, done, m, pending', multiset(ready.heap), n);
          failed, gradients', temporaries', touched', taken' :=
            Contribute(t, m, position, n, value, done, before, seed, operations, gradients', temporaries', touched',
                       taken');
          if failed {
            return;
          }
          pending' := pending'[n := pending'[n] - 1];
          if pending'[n] == 0 {
            ready.Push(n);
          }
        }
        position := position + 1;
      }
      AccountedBound(t, done, m, position, done + {m}, gradients', touched', taken');
    }

    /**
     * Runs the plan from the seed. The recipes of executed nodes must neither be
     * used up nor have saved a value that has changed since; receivers in prior
     * add what they receive to an earlier gradient.
     */
    method Execute(plan: Plan, ghost output: Id, ghost targets: set<Id>, seed: Gradient, operations: GradientHandles,
                   executeSelectedRecipes: bool, collectResults: bool, stale: set<Id>, prior: set<Id>)
      returns (outcome: Outcome, received: seq<Received>, taken: nat)
      requires Recorded(g) && output < |g| && Plans(g, output, targets, plan) && plan.order != []
      requires |seed.value| == g[output].size && operations.Valid() && seed.handle in operations.open
      requires !operations.failed
      requires forall v :: v in plan.requested ==> v in plan.needed
      modifies this`consumed, operations
      ensures var t := TaskOf(g, plan, output, seed.value);
              && Proper(t) && Report(t, Names(received), received) && Ordered(g, received)
              && Names(received) <= plan.needed && operations.Valid()
              && Spent(t, taken)
      ensures operations.failed <==> outcome.OperationFailed? || outcome.ResultsFailed?
      ensures !operations.failed ==>
                (outcome.Completed? <==>
                   forall n :: n in plan.needed ==>
                       Runs(g, plan.needed, executeSelectedRecipes, old(consumed), stale, n))
      ensures outcome.Completed? || outcome.ResultsFailed? ==>
                && Names(received) == plan.needed
                && consumed == old(consumed) + UsedBy(g, plan.needed, executeSelectedRecipes, plan.needed)
      ensures outcome.Completed? ==>
                && Answers(TaskOf(g, plan, output, seed.value), if collectResults then plan.requested else [],
                           outcome.results)
                && operations.open == old(operations.open) + Handles(outcome.results)
                && Handles(outcome.results) !! old(operations.open)
      ensures !outcome.Completed? ==> operations.open == old(operations.open)
      ensures !outcome.Completed? && !outcome.ResultsFailed? ==>
                && received != [] && received[|received| - 1].node == outcome.node
                && (outcome.OperationFailed? <==>
                      Runs(g, plan.needed, executeSelectedRecipes, old(consumed), stale, outcome.node))
                && (!outcome.OperationFailed? ==> (outcome.ConsumedHistory? <==> outcome.node in old(consumed)))
                && consumed == old(consumed)
                     + UsedBy(g, plan.needed, executeSelectedRecipes, Names(received[..|received| - 1]))
    {
      hide *;
      var needed := plan.needed;
      ghost var t := TaskOf(g, plan, output, seed.value);
      TaskIs(g, plan, output, seed.value);
      PlanProper(g, output, targets, plan, seed.value);
      PlanParts(g, output, targets, plan);
      var requested := if collectResults then ToSet(plan.requested) else {};
      ghost var run := Run(t, requested, executeSelectedRecipes, stale, consumed, operations.open, seed.handle);
      var pending := CountPending(g, plan.order, needed, output);
      var first := plan.order[|plan.order| - 1];
      var ready := new ReadyDerivativeNodes(g);
      ready.Push(first);
      var gradients, temporaries := map[first := seed], {};
      ghost var done: set<Id> := {};
      received, taken := [], 0;
      ghost var touched: set<Id> := {};
      Started(run, pending, seed, multiset(ready.heap));
      while ready.heap != []
        invariant ready.g == g && Heap(g, ready.heap) && operations.Valid() && fresh(ready) && !operations.failed
        invariant Running(run, done, gradients, pending, received, temporaries, touched, taken, multiset(ready.heap),
                          consumed, operations.open)
        decreases |needed - done|
      {
        var failure;
        failure, done, gradients, pending, received, temporaries, touched, taken :=
          Turn(run, done, touched, needed, requested, ready, operations, executeSelectedRecipes, stale, prior,
               gradients, pending, received, temporaries, taken);
        if failure.Some? {
          outcome := failure.value;
          FailedParts(run, outcome, received, temporaries, taken, consumed, operations.open);
          operations.ReleaseAll(temporaries);
          return;
        }
      }
      RunEnds(run, done, gradients, pending, received, temporaries, touched, taken, multiset(ready.heap), consumed,
              operations.open);
      RunsAll(run);
      var requests := if collectResults then plan.requested else [];
      RequestsKnown(plan, collectResults, requested, requests);
      ghost var ended := operations.open;
      var failed, results := Collect(t, requests, operations, gradients);
      operations.ReleaseAll(temporaries);
      if failed {
        var handles := Handles(results);
        StillOpen(ended, temporaries, handles, run.before);
        operations.ReleaseAll(handles);
        return ResultsFailed, received, taken;
      }
      outcome := Completed(results);
    }

    /** Takes the first ready node: it receives its gradient, and passes it back unless its recipe may not run. */
    method Turn(ghost run: Run, ghost done: set<Id>, ghost touched: set<Id>, needed: set<Id>, requested: set<Id>,
                ready: ReadyDerivativeNodes, operations: GradientHandles, selected: bool, stale: set<Id>,
                prior: set<Id>,
                gradients: map<Id, Gradient>, pending: map<Id, nat>, received: seq<Received>, temporaries: set<nat>,
                taken: nat)
      returns (failure: Option<Outcome>, ghost done': set<Id>, gradients': map<Id, Gradient>, pending': map<Id, nat>,
               received': seq<Received>, temporaries': set<nat>, ghost touched': set<Id>, taken': nat)
      requires run.t.g == g && run.t.needed == needed && run.requested == requested && run.selected == selected
      requires run.stale == stale && ready.g == g && Heap(g, ready.heap) && operations.Valid() && ready.heap != []
      requires !operations.failed
      requires Running(run, done, gradients, pending, received, temporaries, touched, taken, multiset(ready.heap),
                       consumed, operations.open)
      modifies this`consumed, ready, operations
      ensures Heap(g, ready.heap) && operations.Valid()
      ensures operations.failed <==> failure.Some? && failure.value.OperationFailed?
      ensures failure.None? ==>
                && Running(run, done', gradients', pending', received', temporaries', touched', taken',
                           multiset(ready.heap), consumed, operations.open)
                && |needed - done'| < |needed - done|
      ensures failure.Some? ==>
                Failed(run, failure.value, received', temporaries', taken', consumed, operations.open)
    {
      hide *;
      ghost var heap, open := multiset(ready.heap), operations.open;
      var next := ready.Pop();
      var m := next.value;
      TurnBegins(run, done, gradients, pending, received, temporaries, touched, taken, heap, consumed, open, m,
                 multiset(ready.heap));
      RunningParts(run, done, gradients, pending, received, temporaries, touched, taken, heap, consumed, open);
      var incoming := gradients[m];
      var traversed := Traversed(g, needed, selected, m);
      received' := received + [Received(m, incoming.value)];
      taken' := taken + if m in prior then |incoming.value| else 0;
      if traversed && (m in consumed || m in stale) {
        failure := Some(if m in consumed then ConsumedHistory(m) else InvalidSavedValue(m));
        assert received'[..|received'| - 1] == received;
        TurnFails(run, done, gradients, temporaries, touched, taken', consumed, open, m, received', failure.value);
        done', gradients', pending', temporaries', touched' := done, gradients, pending, temporaries, touched;
        return;
      }
      MayRun(run, consumed, done, m);
      var failed;
      failed, gradients', pending', temporaries', touched', taken' :=
        PassBack(run.t, needed, m, incoming.value, done, requested, run.before, run.seed, ready, operations, gradients,
                 pending, temporaries, touched, taken');
      if failed {
        failure := Some(OperationFailed(m));
        assert received'[..|received'| - 1] == received;
        TurnBreaks(run, done, gradients', temporaries', taken', consumed, operations.open, m, received');
        done' := done;
        return;
      }
      ghost var passed := gradients';
      if traversed && Consumes(g, m) {
        consumed := consumed + {m};
      }
      if m !in requested {
        OwnedReleased(gradients', temporaries', operations.open, run.before, run.seed, m);
        gradients' := gradients' - {m};
        temporaries' := operations.ReleaseTemporary(incoming.handle, temporaries');
      }
      TurnEnds(run, done, passed, gradients', pending', received', temporaries', touched', taken', multiset(ready.heap),
               old(consumed), consumed, operations.open, m);
      FewerPending(needed, done, m);
      done' := done + {m};
      failure := None;
    }

    /** Every requested node answers with a tensor of its own, unless one cannot be made. */
    method Collect(ghost t: Task, requests: seq<Id>, operations: GradientHandles, gradients: map<Id, Gradient>)
      returns (failed: bool, results: seq<Gradient>)
      requires Proper(t) && operations.Valid() && !operations.failed
      requires forall v :: v in requests ==> v <= t.output && v in gradients && gradients[v].value == Grad(t, v)
      modifies operations
      ensures operations.Valid() && failed == operations.failed && (!failed ==> Answers(t, requests, results))
      ensures operations.open == old(operations.open) + Handles(results) && Handles(results) !! old(operations.open)
    {
      hide Proper, Grad;
      results := [];
      for i := 0 to |requests|
        invariant operations.Valid() && Answers(t, requests[..i], results) && !operations.failed
        invariant operations.open == old(operations.open) + Handles(results) && Handles(results) !! old(operations.open)
      {
        assert requests[i] in requests;
        var h := operations.Open();
        if h.None? {
          return true, results;
        }
        var result := Gradient(h.value, gradients[requests[i]].value);
        AnswersMore(t, requests, i, results, result);
        results := results + [result];
      }
      assert requests[..|requests|] == requests;
      failed := false;
    }

    /** Adds one contribution to what n has received, taking ownership of the result. */
    method Contribute(ghost t: Task, ghost m: Id, ghost position: nat, n: Id, value: Vector, ghost done: set<Id>,
                      ghost before: set<nat>, ghost seed: nat, operations: GradientHandles,
                      gradients: map<Id, Gradient>, temporaries: set<nat>, ghost touched: set<Id>, taken: nat)
      returns (failed: bool, gradients': map<Id, Gradient>, temporaries': set<nat>, ghost touched': set<Id>,
               taken': nat)
      requires Proper(t) && m <= t.output && position < |t.g[m].inputs| && !operations.failed
      requires m in t.needed && m !in done && done <= t.needed
      requires t.g[m].inputs[position] == Some(n) && n in t.needed && n < m && n !in done && |value| == t.g[n].size
      requires n in Values(gradients) ==> |Values(gradients)[n]| == |value|
      requires operations.Valid() && Owned(gradients, temporaries, operations.open, before, seed)
      requires Accounted(t, done, m, position, done + {m}, gradients, touched, taken)
      modifies operations
      ensures operations.Valid() && Owned(gradients', temporaries', operations.open, before, seed)
      ensures failed == operations.failed && (failed ==> Spent(t, taken'))
      ensures !failed ==>
                && Values(gradients') == Accumulate(Values(gradients), n, value)
                && (forall k :: k in gradients && k != n ==> k in gradients' && gradients'[k] == gradients[k])
                && Accounted(t, done, m, position + 1, done + {m}, gradients', touched', taken')
    {
      hide *;
      failed, gradients', temporaries', touched', taken' := false, gradients, temporaries, touched, taken;
      ValuesAt(gradients, n);
      ghost var open := operations.open;
      var made := operations.Open();
      if made.None? {
        AccountedBound(t, done, m, position, done + {m}, gradients, touched, taken);
        failed := true;
        return;
      }
      var h := made.value;
      if n in gradients {
        var previous := gradients[n];
        var combined := Gradient(h, Add(previous.value, value));
        AccountedCombined(t, done, m, position, position + 1, done + {m}, gradients, touched, taken, n, combined);
        var sum := operations.Open();
        if sum.None? {
          AccountedBound(t, done, m, position + 1, done + {m}, gradients[n := combined], touched, taken + 2 * |value|);
          SpentLess(t, taken + 2 * |value|, taken + |value|);
          OwnedExtra(gradients, temporaries, open, before, seed, h);
          failed, temporaries', taken' := true, temporaries + {h}, taken + |value|;
          return;
        }
        combined := Gradient(sum.value, Add(previous.value, value));
        OwnedCombined(gradients, temporaries, open, before, seed, n, h, combined);
        temporaries' := operations.ReleaseTemporary(previous.handle, temporaries + {h} + {combined.handle});
        temporaries' := operations.ReleaseTemporary(h, temporaries');
        AccountedCombined(t, done, m, position, position + 1, done + {m}, gradients, touched, taken, n, combined);
        ValuesSet(gradients, n, combined);
        AccumulateIs(Values(gradients), n, value);
        gradients' := gradients[n := combined];
        taken' := taken + 2 * |value|;
      } else {
        OwnedFirst(gradients, temporaries, open, before, seed, n, Gradient(h, value));
        AccountedFirst(t, done, m, position, position + 1, done + {m}, gradients, touched, taken, n,
                       Gradient(h, value));
        ValuesSet(gradients, n, Gradient(h, value));
        AccumulateIs(Values(gradients), n, value);
        gradients', temporaries' := gradients[n := Gradient(h, value)], temporaries + {h};
        touched', taken' := touched + {n}, taken + |value|;
      }
    }
  }

  lemma SpentLess(t: Task, more: nat, less: nat)
    requires Proper(t) && Spent(t, more) && less <= more
    ensures Spent(t, less)
  {
  }

  lemma StillOpen(open: set<nat>, temporaries: set<nat>, handles: set<nat>, before: set<nat>)
    requires temporaries <= open && open - temporaries == before && handles !! open
    ensures handles <= (open + handles) - temporaries && (open + handles) - temporaries - handles == before
  {
  }

  lemma AccumulateIs(gradients: map<Id, Vector>, n: Id, value: Vector)
    requires n in gradients ==> |gradients[n]| == |value|
    ensures Accumulate(gradients, n, value) ==
            gradients[n := if n in gradients then Add(gradients[n], value) else value]
  {
  }

  lemma StateProper(t: Task, done: set<Id>, m: Id, p: nat, requested: set<Id>, gradients: map<Id, Vector>,
                    pending: map<Id, nat>)
    requires State(t, done, m, p, requested, gradients, pending)
    ensures Proper(t) && Recorded(t.g) && m <= t.output < |t.g| && t.output in t.needed
    ensures |t.seed| == t.g[t.output].size
  {
    hide Holds, DerivativeState.Closed;
  }

  lemma EdgeHere(t: Task, m: Id, p: nat, n: Id)
    requires m < |t.g| && p < |t.g[m].inputs| && t.g[m].inputs[p] == Some(n)
    ensures IsEdge(t.g, m, p, n)
  {
  }
}
