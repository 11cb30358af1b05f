/** The loop state of reverse accumulation, on values, and how one edge and one finished node change it. */
module DerivativeState {
  import opened Options
  import opened Tensors
  import opened DerivativeGraph
  import opened DerivativePlan
  import opened DerivativeGradients

  datatype Task = Task(g: Graph, needed: set<Id>, output: Id, seed: Vector)

  /** A selection: every needed node but the output is an input of a needed node. */
  ghost predicate Proper(t: Task) {
    && Recorded(t.g) && t.output < |t.g| && |t.seed| == t.g[t.output].size && t.output in t.needed
    && (forall n :: n in t.needed ==> n <= t.output)
    && (forall n :: n in t.needed && n != t.output ==> EdgesInto(t.g, t.needed, n, t.output) > 0)
  }

  /** A plan with a needed output is a proper selection. */
  lemma PlanProper(g: Graph, output: Id, targets: set<Id>, plan: Plan, seed: Vector)
    requires Recorded(g) && output < |g| && Plans(g, output, targets, plan) && plan.order != []
    requires |seed| == g[output].size
    ensures Proper(Task(g, plan.needed, output, seed))
  {
    assert output in plan.order;
    forall n | n in plan.needed && n != output ensures EdgesInto(g, plan.needed, n, output) > 0 {
      assert Selected(g, output, targets, n);
      var m, p := SelectedParent(g, output, targets, n);
      assert m in plan.needed;
      EdgeIntoCounted(g, plan.needed, m, p, n, output);
    }
    hide Reachable, Needs;
  }

  function Grad(t: Task, n: Id): (v: Vector)
    requires Recorded(t.g) && t.output < |t.g| && n <= t.output && |t.seed| == t.g[t.output].size
    ensures |v| == t.g[n].size
  {
    Gradient(t.g, t.needed, t.output, t.seed, n)
  }

  /** What the finished nodes and the first positions of m have passed to n so far. */
  function Partial(t: Task, done: set<Id>, m: Id, p: nat, n: Id): (v: Vector)
    requires Recorded(t.g) && t.output < |t.g| && n <= t.output && |t.seed| == t.g[t.output].size
    requires m <= t.output && p <= |t.g[m].inputs|
    ensures |v| == t.g[n].size
  {
    if n == t.output then t.seed
    else Add(Gathered(t.g, t.needed, t.output, t.seed, done, n, t.output), FromNode(t.g, m, n, Grad(t, m), p))
  }

  /** The edges along which something has been passed to n. */
  function Passed(t: Task, done: set<Id>, m: Id, p: nat, n: Id): nat
    requires t.output < |t.g| && n <= t.output && m <= t.output && p <= |t.g[m].inputs|
  {
    EdgesInto(t.g, done, n, t.output) + EdgesFrom(t.g, m, n, p)
  }

  function Waiting(t: Task, done: set<Id>, m: Id, p: nat, n: Id): int
    requires t.output < |t.g| && n <= t.output && m <= t.output && p <= |t.g[m].inputs|
  {
    EdgesInto(t.g, t.needed - done, n, t.output) - EdgesFrom(t.g, m, n, p)
  }

  /** A node still to come holds what has been passed to it, and counts what it waits for. */
  ghost predicate Holds(t: Task, done: set<Id>, m: Id, p: nat, gradients: map<Id, Vector>, pending: map<Id, nat>, n: Id)
    requires Proper(t) && m <= t.output && p <= |t.g[m].inputs|
  {
    n in t.needed && n !in done ==>
      && (n in gradients <==> n == t.output || Passed(t, done, m, p, n) > 0)
      && (n in gradients ==> gradients[n] == Partial(t, done, m, p, n))
      && (n != t.output ==> n in pending && pending[n] == Waiting(t, done, m, p, n))
  }

  /** Nothing more will be passed to a finished node, and what was requested of it is kept. */
  ghost predicate Closed(t: Task, done: set<Id>, requested: set<Id>, gradients: map<Id, Vector>, n: Id)
    requires Proper(t)
  {
    n in done ==>
      && n in t.needed && EdgesInto(t.g, t.needed - done, n, t.output) == 0
      && (n in requested ==> n in gradients && gradients[n] == Grad(t, n))
  }

  ghost predicate State(t: Task, done: set<Id>, m: Id, p: nat, requested: set<Id>, gradients: map<Id, Vector>,
                        pending: map<Id, nat>)
  {
    && Proper(t) && m <= t.output && p <= |t.g[m].inputs|
    && (forall n: Id :: Holds(t, done, m, p, gradients, pending, n))
    && (forall n: Id :: Closed(t, done, requested, gradients, n))
  }

  predicate IsReady(t: Task, done: set<Id>, pending: map<Id, nat>, n: Id) {
    n in t.needed && n !in done && (n == t.output || (n in pending && pending[n] == 0))
  }

  /** The heap holds each ready node once, the current one excepted. */
  ghost predicate Readied(t: Task, done: set<Id>, current: set<Id>, pending: map<Id, nat>, heap: multiset<Id>) {
    forall n: Id :: heap[n] == if IsReady(t, done, pending, n) && n !in current then 1 else 0
  }

  /** A ready node holds its whole gradient. */
  lemma ReadyHolds(t: Task, done: set<Id>, requested: set<Id>, gradients: map<Id, Vector>, pending: map<Id, nat>, n: Id)
    requires State(t, done, t.output, 0, requested, gradients, pending) && done <= t.needed
    requires IsReady(t, done, pending, n)
    ensures n <= t.output && n in gradients && gradients[n] == Grad(t, n)
    ensures EdgesInto(t.g, t.needed - done, n, t.output) == 0
  {
    assert Holds(t, done, t.output, 0, gradients, pending, n);
    if n != t.output {
      EdgesSplit(t.g, t.needed, done, n, t.output);
      GatheredAll(t.g, t.needed, t.output, t.seed, done, n, t.output);
      AddZeros(Gathered(t.g, t.needed, t.output, t.seed, done, n, t.output));
    }
    hide Gathered, Add, Zeros, EdgesInto;
  }

  /** A node that has its gradient becomes the current one. */
  lemma Begin(t: Task, done: set<Id>, requested: set<Id>, gradients: map<Id, Vector>, pending: map<Id, nat>, m: Id)
    requires State(t, done, t.output, 0, requested, gradients, pending) && m <= t.output
    ensures State(t, done, m, 0, requested, gradients, pending)
  {
    forall n: Id ensures Holds(t, done, m, 0, gradients, pending, n) {
      assert Holds(t, done, t.output, 0, gradients, pending, n);
    }
    hide Gathered, Add, EdgesInto, Gradient, Proper, Closed;
  }

  /** A position without a needed input passes nothing to a needed node. */
  lemma Skip(t: Task, done: set<Id>, m: Id, p: nat, next: nat, requested: set<Id>, gradients: map<Id, Vector>,
             pending: map<Id, nat>)
    requires next == p + 1 && State(t, done, m, p, requested, gradients, pending) && p < |t.g[m].inputs|
    requires t.g[m].inputs[p].None? || t.g[m].inputs[p].value !in t.needed
    ensures State(t, done, m, next, requested, gradients, pending)
  {
    forall n: Id ensures Holds(t, done, m, next, gradients, pending, n) {
      assert Holds(t, done, m, p, gradients, pending, n);
    }
    hide Gathered, Add, EdgesInto, Gradient, Proper, Closed;
  }

  /** The target of an edge from an unfinished node is unfinished. */
  lemma TargetOpen(t: Task, done: set<Id>, m: Id, p: nat, requested: set<Id>, gradients: map<Id, Vector>,
                   pending: map<Id, nat>, n: Id)
    requires State(t, done, m, p, requested, gradients, pending) && p < |t.g[m].inputs|
    requires m in t.needed && m !in done && t.g[m].inputs[p] == Some(n) && n in t.needed
    ensures n < m && n !in done
  {
    assert Earlier(t.g, m);
    assert Closed(t, done, requested, gradients, n);
    EdgeIntoCounted(t.g, t.needed - done, m, p, n, t.output);
    hide Holds;
  }

  /** The gradients after a contribution to n. */
  function Accumulate(gradients: map<Id, Vector>, n: Id, contribution: Vector): map<Id, Vector>
    requires n in gradients ==> |gradients[n]| == |contribution|
  {
    gradients[n := if n in gradients then Add(gradients[n], contribution) else contribution]
  }

  /** One edge passes its contribution and counts as arrived. */
  lemma Pass(t: Task, done: set<Id>, m: Id, p: nat, next: nat, requested: set<Id>, gradients: map<Id, Vector>,
             pending: map<Id, nat>, n: Id, contribution: Vector)
    requires next == p + 1 && State(t, done, m, p, requested, gradients, pending) && p < |t.g[m].inputs|
    requires m in t.needed && m !in done && t.g[m].inputs[p] == Some(n) && n in t.needed
    requires IsEdge(t.g, m, p, n) && contribution == Vjp(t.g, m, p, n, Grad(t, m))
    ensures n in pending && pending[n] > 0 && (n in gradients ==> |gradients[n]| == |contribution|)
    ensures State(t, done, m, next, requested, Accumulate(gradients, n, contribution), pending[n := pending[n] - 1])
  {
    TargetOpen(t, done, m, p, requested, gradients, pending, n);
    PassTo(t, done, m, p, requested, gradients, pending, n, contribution);
    var gradients', pending' := Accumulate(gradients, n, contribution), pending[n := pending[n] - 1];
    forall k: Id ensures Holds(t, done, m, next, gradients', pending', k) {
      if k != n {
        assert Holds(t, done, m, p, gradients, pending, k);
        PassElsewhere(t, done, m, p, gradients, pending, gradients', pending', n, k);
      }
    }
    hide Holds;
    forall k: Id ensures Closed(t, done, requested, gradients', k) {
      assert Closed(t, done, requested, gradients, k);
    }
  }

  lemma PassElsewhere(t: Task, done: set<Id>, m: Id, p: nat, gradients: map<Id, Vector>, pending: map<Id, nat>,
                      gradients': map<Id, Vector>, pending': map<Id, nat>, n: Id, k: Id)
    requires Proper(t) && m <= t.output && p < |t.g[m].inputs| && t.g[m].inputs[p] == Some(n) && k != n
    requires Holds(t, done, m, p, gradients, pending, k)
    requires k in gradients' <==> k in gradients
    requires k in gradients ==> gradients'[k] == gradients[k]
    requires k in pending ==> k in pending' && pending'[k] == pending[k]
    ensures Holds(t, done, m, p + 1, gradients', pending', k)
  {
    hide Gathered, Add, EdgesInto, Gradient, Proper;
  }

  lemma PassTo(t: Task, done: set<Id>, m: Id, p: nat, requested: set<Id>, gradients: map<Id, Vector>,
               pending: map<Id, nat>, n: Id, contribution: Vector)
    requires State(t, done, m, p, requested, gradients, pending) && p < |t.g[m].inputs|
    requires m in t.needed && m !in done && n < m && n !in done && t.g[m].inputs[p] == Some(n) && n in t.needed
    requires IsEdge(t.g, m, p, n) && contribution == Vjp(t.g, m, p, n, Grad(t, m))
    ensures n in pending && pending[n] > 0 && (n in gradients ==> |gradients[n]| == |contribution|)
    ensures Holds(t, done, m, p + 1, Accumulate(gradients, n, contribution), pending[n := pending[n] - 1], n)
  {
    assert Holds(t, done, m, p, gradients, pending, n);
    EdgesLess(t.g, t.needed - done, n, t.output, m);
    EdgesMonotone(t.g, m, n, p + 1, |t.g[m].inputs|);
    var gathered := Gathered(t.g, t.needed, t.output, t.seed, done, n, t.output);
    var before := FromNode(t.g, m, n, Grad(t, m), p);
    AddAssociates(gathered, before, contribution);
    if n !in gradients {
      NothingPassed(t, done, m, p, n);
      AddZeros(contribution);
    }
    hide Gathered, Add, EdgesInto, Gradient, Proper, Zeros;
  }

  lemma NothingPassed(t: Task, done: set<Id>, m: Id, p: nat, n: Id)
    requires Proper(t) && m <= t.output && p <= |t.g[m].inputs| && n <= t.output && n != t.output
    requires Passed(t, done, m, p, n) == 0
    ensures Partial(t, done, m, p, n) == Zeros(t.g[n].size)
  {
    NoEdgesNothing(t.g, m, n, Grad(t, m), p);
    NothingGathered(t, done, n, t.output);
    AddZeros(Zeros(t.g[n].size));
    hide Gathered, Add, Gradient, Proper, Zeros;
  }

  lemma {:induction false} NothingGathered(t: Task, done: set<Id>, n: Id, m: Id)
    requires Proper(t) && n <= m <= t.output && EdgesInto(t.g, done, n, m) == 0
    ensures Gathered(t.g, t.needed, t.output, t.seed, done, n, m) == Zeros(t.g[n].size)
    decreases m
  {
    hide FromNode, Gradient, Add, EdgesFrom, Zeros;
    if m > n {
      NothingGathered(t, done, n, m - 1);
      if m in done {
        NoEdgesNothing(t.g, m, n, Gradient(t.g, t.needed, t.output, t.seed, m), |t.g[m].inputs|);
        AddZeros(Zeros(t.g[n].size));
      }
    }
  }

  /** All positions of m have been passed: it is finished. */
  lemma End(t: Task, done: set<Id>, m: Id, requested: set<Id>, gradients: map<Id, Vector>, pending: map<Id, nat>)
    requires m < |t.g| && State(t, done, m, |t.g[m].inputs|, requested, gradients, pending)
    requires m in t.needed && m !in done && EdgesInto(t.g, t.needed - done, m, t.output) == 0
    requires m in gradients && gradients[m] == Grad(t, m)
    ensures State(t, done + {m}, t.output, 0, requested, if m in requested then gradients else gradients - {m}, pending)
  {
    var done', gradients' := done + {m}, if m in requested then gradients else gradients - {m};
    forall n: Id ensures Holds(t, done', t.output, 0, gradients', pending, n) {
      assert Holds(t, done, m, |t.g[m].inputs|, gradients, pending, n);
      if n in t.needed && n !in done' {
        EndElsewhere(t, done, m, n);
      }
    }
    hide Holds;
    forall n: Id ensures Closed(t, done', requested, gradients', n) {
      assert Closed(t, done, requested, gradients, n);
      EndClosed(t, done, m, n);
    }
  }

  lemma EndClosed(t: Task, done: set<Id>, m: Id, n: Id)
    requires Proper(t) && m in t.needed && m !in done
    ensures n <= t.output && EdgesInto(t.g, t.needed - done, n, t.output) == 0 ==>
              EdgesInto(t.g, t.needed - (done + {m}), n, t.output) == 0
  {
    if n <= t.output {
      EdgesLess(t.g, t.needed - done, n, t.output, m);
      assert t.needed - (done + {m}) == (t.needed - done) - {m};
    }
    hide Proper, EdgesInto, EdgesFrom;
  }

  lemma EndElsewhere(t: Task, done: set<Id>, m: Id, n: Id)
    requires Proper(t) && m in t.needed && m !in done && n in t.needed && n != m
    ensures Partial(t, done + {m}, t.output, 0, n) == Partial(t, done, m, |t.g[m].inputs|, n)
    ensures Passed(t, done + {m}, t.output, 0, n) == Passed(t, done, m, |t.g[m].inputs|, n)
    ensures Waiting(t, done + {m}, t.output, 0, n) == Waiting(t, done, m, |t.g[m].inputs|, n)
  {
    EdgesMore(t.g, done, n, t.output, m);
    EdgesLess(t.g, t.needed - done, n, t.output, m);
    assert t.needed - (done + {m}) == (t.needed - done) - {m};
    if n != t.output {
      GatheredMore(t.g, t.needed, t.output, t.seed, done, n, t.output, m);
    }
    EndUp(t, done, m, n);
    hide Gathered, EdgesInto, Gradient, Proper;
    if n != t.output {
      AddZeros(Gathered(t.g, t.needed, t.output, t.seed, done + {m}, n, t.output));
    }
    hide Zeros, Add;
  }

  /** Nothing is passed upwards. */
  lemma EndUp(t: Task, done: set<Id>, m: Id, n: Id)
    requires Proper(t) && m in t.needed && n in t.needed
    ensures m <= n ==> EdgesFrom(t.g, m, n, |t.g[m].inputs|) == 0
    ensures m <= n && n != t.output ==>
              var v := Gathered(t.g, t.needed, t.output, t.seed, done, n, t.output);
              Add(v, FromNode(t.g, m, n, Grad(t, m), |t.g[m].inputs|)) == v
  {
    if m <= n {
      NoEdgeUp(t.g, m, n, |t.g[m].inputs|);
      NoEdgesNothing(t.g, m, n, Grad(t, m), |t.g[m].inputs|);
      if n != t.output {
        AddZeros(Gathered(t.g, t.needed, t.output, t.seed, done, n, t.output));
      }
    }
    hide Gathered, EdgesInto, Gradient, Proper, Zeros, Add;
  }

  /** As long as something is unfinished, something is ready: the latest constructed. */
  lemma SomethingReady(t: Task, done: set<Id>, requested: set<Id>, gradients: map<Id, Vector>, pending: map<Id, nat>)
    requires State(t, done, t.output, 0, requested, gradients, pending) && done <= t.needed
    requires forall n: Id :: !IsReady(t, done, pending, n)
    ensures done == t.needed
  {
    if t.needed - done == {} {
      forall x | x in t.needed ensures x in done {
        assert x !in t.needed - done;
      }
    } else {
      var n := Latest(t.needed - done, t.output);
      NoneAbove(t, done, n, t.output);
      assert Holds(t, done, t.output, 0, gradients, pending, n);
      assert IsReady(t, done, pending, n);
    }
  }

  lemma {:induction false} Latest(s: set<Id>, limit: nat) returns (n: Id)
    requires s != {} && forall k :: k in s ==> k <= limit
    ensures n in s && forall k :: k in s ==> k <= n
    decreases limit
  {
    if limit in s {
      n := limit;
    } else if limit == 0 {
      n :| n in s;
    } else {
      n := Latest(s, limit - 1);
    }
  }

  lemma {:induction false} NoneAbove(t: Task, done: set<Id>, n: Id, m: Id)
    requires Proper(t) && n <= m <= t.output && forall k :: k in t.needed - done ==> k <= n
    ensures EdgesInto(t.g, t.needed - done, n, m) == 0
    decreases m
  {
    if m > n {
      NoneAbove(t, done, n, m - 1);
    }
  }

  /** Before anything is finished the output alone has something, and waits for nothing. */
  lemma Initially(t: Task, requested: set<Id>, pending: map<Id, nat>)
    requires Proper(t)
    requires forall n :: n in t.needed && n != t.output ==>
               n in pending && pending[n] == EdgesInto(t.g, t.needed, n, t.output)
    ensures State(t, {}, t.output, 0, requested, map[t.output := t.seed], pending)
    ensures Readied(t, {}, {}, pending, multiset{t.output})
  {
    assert t.needed - {} == t.needed;
    forall n: Id ensures Holds(t, {}, t.output, 0, map[t.output := t.seed], pending, n) {
      if n in t.needed {
        NothingSelected(t.g, t.needed, t.output, t.seed, n, t.output);
      }
    }
    hide EdgesInto, Gathered, Gradient;
  }

  /** Taking the popped node out of the ready ones. */
  lemma Popped(t: Task, done: set<Id>, pending: map<Id, nat>, heap: multiset<Id>, heap': multiset<Id>, m: Id)
    requires Readied(t, done, {}, pending, heap) && m in heap && heap' == heap - multiset{m}
    ensures IsReady(t, done, pending, m) && Readied(t, done, {m}, pending, heap')
  {
    assert heap[m] == if IsReady(t, done, pending, m) && m !in {} then 1 else 0;
    forall n: Id ensures heap'[n] == if IsReady(t, done, pending, n) && n !in {m} then 1 else 0 {
      assert heap[n] == if IsReady(t, done, pending, n) && n !in {} then 1 else 0;
    }
    hide IsReady;
  }

  /** A node whose last contribution has arrived becomes ready. */
  lemma Arrived(t: Task, done: set<Id>, m: Id, pending: map<Id, nat>, heap: multiset<Id>, n: Id)
    requires Readied(t, done, {m}, pending, heap) && n in pending && pending[n] > 0 && n != m && n != t.output
    requires n in t.needed && n !in done
    ensures var pending' := pending[n := pending[n] - 1];
            Readied(t, done, {m}, pending', if pending'[n] == 0 then heap + multiset{n} else heap)
  {
    var pending' := pending[n := pending[n] - 1];
    var heap' := if pending'[n] == 0 then heap + multiset{n} else heap;
    forall k: Id ensures heap'[k] == if IsReady(t, done, pending', k) && k !in {m} then 1 else 0 {
      assert heap[k] == if IsReady(t, done, pending, k) && k !in {m} then 1 else 0;
    }
  }

  lemma Retired(t: Task, done: set<Id>, m: Id, pending: map<Id, nat>, heap: multiset<Id>)
    requires Readied(t, done, {m}, pending, heap)
    ensures Readied(t, done + {m}, {}, pending, heap)
  {
    forall k: Id ensures heap[k] == if IsReady(t, done + {m}, pending, k) && k !in {} then 1 else 0 {
      assert heap[k] == if IsReady(t, done, pending, k) && k !in {m} then 1 else 0;
    }
  }
}
