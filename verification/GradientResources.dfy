/** What reverse accumulation owns while it runs: handles of untracked tensors, and the elements they take. */
module GradientResources {
  import opened Options
  import opened Tensors
  import opened DerivativeGraph
  import opened DerivativeGradients
  import opened DerivativeState

  datatype Gradient = Gradient(handle: nat, value: Vector)

  /**
   * The untracked tensors that are open, and whether the operations that make
   * them succeed, given in advance. Closing one that is not open would be an error.
   */
  class GradientHandles {
    var open: set<nat>
    var next: nat
    var answers: seq<bool>
    var failed: bool

    ghost predicate Valid()
      reads this
    {
      forall h :: h in open ==> h < next
    }

    /** A new tensor, unless its operation fails. */
    method Open() returns (h: Option<nat>)
      requires Valid()
      modifies this
      ensures Valid() && (h.None? ==> failed && open == old(open))
      ensures h.Some? ==> failed == old(failed) && h.value !in old(open) && open == old(open) + {h.value}
    {
      var fails := answers != [] && !answers[0];
      answers := if answers == [] then [] else answers[1..];
      if fails {
        failed := true;
        return None;
      }
      h := Some(next);
      next := next + 1;
      open := open + {h.value};
    }

    method Close(h: nat)
      requires Valid() && h in open
      modifies this
      ensures Valid() && open == old(open) - {h} && failed == old(failed)
    {
      open := open - {h};
    }

    /** Closes what is still a temporary, and only that. */
    method ReleaseTemporary(h: nat, temporaries: set<nat>) returns (rest: set<nat>)
      requires Valid() && temporaries <= open
      modifies this
      ensures Valid() && rest == temporaries - {h} && failed == old(failed)
      ensures open == if h in temporaries then old(open) - {h} else old(open)
    {
      rest := temporaries - {h};
      if h in temporaries {
        Close(h);
      }
    }

    method ReleaseAll(temporaries: set<nat>)
      requires Valid() && temporaries <= open
      modifies this
      ensures Valid() && open == old(open) - temporaries && failed == old(failed)
    {
      var rest := temporaries;
      while rest != {}
        invariant rest <= temporaries && rest <= open && open == old(open) - (temporaries - rest) && Valid()
        invariant failed == old(failed)
      {
        var h :| h in rest;
        Close(h);
        rest := rest - {h};
      }
    }
  }

  /** The gradients apart from their handles. */
  function Values(gradients: map<Id, Gradient>): map<Id, Vector> { map n | n in gradients :: gradients[n].value }

  lemma ValuesSet(gradients: map<Id, Gradient>, n: Id, gradient: Gradient)
    ensures Values(gradients[n := gradient]) == Values(gradients)[n := gradient.value]
  {
  }

  lemma ValuesUnset(gradients: map<Id, Gradient>, n: Id)
    ensures Values(gradients - {n}) == Values(gradients) - {n}
  {
  }

  lemma ValuesAt(gradients: map<Id, Gradient>, n: Id)
    ensures n in Values(gradients) <==> n in gradients
    ensures n in gradients ==> Values(gradients)[n] == gradients[n].value
  {
  }

  /** Besides what was open before, the temporaries are; no two nodes share a handle. */
  ghost predicate Owned(gradients: map<Id, Gradient>, temporaries: set<nat>, open: set<nat>, before: set<nat>,
                        seed: nat)
  {
    && before !! temporaries && open == before + temporaries && seed in before
    && (forall n: Id :: n in gradients ==> gradients[n].handle in temporaries || gradients[n].handle == seed)
    && (forall m: Id, n: Id :: m in gradients && n in gradients && m != n ==>
          gradients[m].handle != gradients[n].handle)
  }

  lemma OwnedFirst(gradients: map<Id, Gradient>, temporaries: set<nat>, open: set<nat>, before: set<nat>, seed: nat,
                   n: Id, gradient: Gradient)
    requires Owned(gradients, temporaries, open, before, seed) && n !in gradients && gradient.handle !in open
    ensures Owned(gradients[n := gradient], temporaries + {gradient.handle}, open + {gradient.handle}, before, seed)
  {
  }

  lemma OwnedCombined(gradients: map<Id, Gradient>, temporaries: set<nat>, open: set<nat>, before: set<nat>, seed: nat,
                      n: Id, h: nat, gradient: Gradient)
    requires Owned(gradients, temporaries, open, before, seed) && n in gradients
    requires h !in open && gradient.handle !in open && h != gradient.handle
    ensures var previous := gradients[n].handle;
            var all := temporaries + {h} + {gradient.handle};
            var wide := open + {h} + {gradient.handle};
            var rest := if previous in all then wide - {previous} else wide;
            && h in all - {previous} && all <= wide && all - {previous} <= rest
            && Owned(gradients[n := gradient], all - {previous} - {h}, rest - {h}, before, seed)
  {
  }

  /** A contribution that could not be combined is one more temporary. */
  lemma OwnedExtra(gradients: map<Id, Gradient>, temporaries: set<nat>, open: set<nat>, before: set<nat>, seed: nat,
                   h: nat)
    requires Owned(gradients, temporaries, open, before, seed) && h !in open
    ensures Owned(gradients, temporaries + {h}, open + {h}, before, seed)
  {
  }

  lemma OwnedReleased(gradients: map<Id, Gradient>, temporaries: set<nat>, open: set<nat>, before: set<nat>,
                      seed: nat, m: Id)
    requires Owned(gradients, temporaries, open, before, seed) && m in gradients
    ensures var h := gradients[m].handle;
            temporaries <= open
            && Owned(gradients - {m}, temporaries - {h}, if h in temporaries then open - {h} else open, before, seed)
  {
  }

  lemma OwnedOpen(gradients: map<Id, Gradient>, temporaries: set<nat>, open: set<nat>, before: set<nat>, seed: nat)
    requires Owned(gradients, temporaries, open, before, seed)
    ensures temporaries <= open && open - temporaries == before
  {
  }

  /** The elements of the nodes in s up to m. */
  function Sizes(g: Graph, s: set<Id>, m: Id): nat
    requires m < |g|
  {
    (if m in s then g[m].size else 0) + if m == 0 then 0 else Sizes(g, s, m - 1)
  }

  lemma {:induction false} SizesMore(g: Graph, s: set<Id>, m: Id, k: Id)
    requires m < |g| && k !in s && k < |g|
    ensures Sizes(g, s + {k}, m) == Sizes(g, s, m) + if k <= m then g[k].size else 0
  {
    if m > 0 {
      SizesMore(g, s, m - 1, k);
    }
  }

  lemma {:induction false} SizesMonotone(g: Graph, s: set<Id>, all: set<Id>, m: Id)
    requires m < |g| && s <= all
    ensures Sizes(g, s, m) <= Sizes(g, all, m)
  {
    if m > 0 {
      SizesMonotone(g, s, all, m - 1);
    }
  }

  lemma {:induction false} SizesNone(g: Graph, m: Id)
    requires m < |g|
    ensures Sizes(g, {}, m) == 0
  {
    if m > 0 {
      SizesNone(g, m - 1);
    }
  }

  /** The elements passed along the first selected edges of m. */
  function EdgeSizes(g: Graph, needed: set<Id>, m: Id, upto: nat): nat
    requires Recorded(g) && m < |g| && upto <= |g[m].inputs|
  {
    if upto == 0 then 0 else EdgeSizes(g, needed, m, upto - 1) + EdgeSize(g, needed, m, upto - 1)
  }

  function EdgeSize(g: Graph, needed: set<Id>, m: Id, p: nat): nat
    requires Recorded(g) && m < |g| && p < |g[m].inputs|
  {
    assert Earlier(g, m);
    var input := g[m].inputs[p];
    if input.Some? && input.value in needed then g[input.value].size else 0
  }

  lemma {:induction false} EdgeSizesMonotone(g: Graph, needed: set<Id>, m: Id, p: nat, q: nat)
    requires Recorded(g) && m < |g| && p <= q <= |g[m].inputs|
    ensures EdgeSizes(g, needed, m, p) <= EdgeSizes(g, needed, m, q)
  {
    hide Recorded;
    if p < q {
      EdgeSizesMonotone(g, needed, m, p, q - 1);
    }
  }

  /** The elements passed along the selected edges of the nodes in s up to m. */
  function AllEdgeSizes(g: Graph, needed: set<Id>, s: set<Id>, m: Id): nat
    requires Recorded(g) && m < |g|
  {
    (if m in s then EdgeSizes(g, needed, m, |g[m].inputs|) else 0)
    + if m == 0 then 0 else AllEdgeSizes(g, needed, s, m - 1)
  }

  lemma {:induction false} AllEdgeSizesMore(g: Graph, needed: set<Id>, s: set<Id>, m: Id, k: Id)
    requires Recorded(g) && m < |g| && k !in s && k < |g|
    ensures AllEdgeSizes(g, needed, s + {k}, m)
         == AllEdgeSizes(g, needed, s, m) + if k <= m then EdgeSizes(g, needed, k, |g[k].inputs|) else 0
  {
    hide Recorded, EdgeSizes;
    if m > 0 {
      AllEdgeSizesMore(g, needed, s, m - 1, k);
    }
  }

  lemma {:induction false} AllEdgeSizesMonotone(g: Graph, needed: set<Id>, s: set<Id>, all: set<Id>, m: Id)
    requires Recorded(g) && m < |g| && s <= all
    ensures AllEdgeSizes(g, needed, s, m) <= AllEdgeSizes(g, needed, all, m)
  {
    hide Recorded, EdgeSizes;
    if m > 0 {
      AllEdgeSizesMonotone(g, needed, s, all, m - 1);
    }
  }

  lemma {:induction false} AllEdgeSizesNone(g: Graph, needed: set<Id>, m: Id)
    requires Recorded(g) && m < |g|
    ensures AllEdgeSizes(g, needed, {}, m) == 0
  {
    hide Recorded, EdgeSizes;
    if m > 0 {
      AllEdgeSizesNone(g, needed, m - 1);
    }
  }

  /**
   * Every edge has allocated at most its contribution and a combination, but the
   * first contribution to a node needs no combination; and every received node
   * at most one addition to an earlier gradient.
   */
  ghost predicate Accounted(t: Task, done: set<Id>, m: Id, p: nat, received: set<Id>, gradients: map<Id, Gradient>,
                            touched: set<Id>, taken: nat)
    requires Proper(t) && m <= t.output && p <= |t.g[m].inputs|
  {
    && taken + Sizes(t.g, touched, t.output)
         <= 2 * (AllEdgeSizes(t.g, t.needed, done, t.output) + EdgeSizes(t.g, t.needed, m, p))
            + Sizes(t.g, received, t.output)
    && t.output !in touched && touched <= t.needed
    && (forall n :: n in received && n != t.output ==> n in touched)
    && (forall n :: n in t.needed && n !in received && n != t.output ==> (n in gradients <==> n in touched))
  }

  lemma AccountedInitially(t: Task, gradient: Gradient)
    requires Proper(t)
    ensures Accounted(t, {}, t.output, 0, {}, map[t.output := gradient], {}, 0)
  {
    SizesNone(t.g, t.output);
    AllEdgeSizesNone(t.g, t.needed, t.output);
    hide Proper, Sizes, AllEdgeSizes;
  }

  lemma AccountedReceived(t: Task, done: set<Id>, m: Id, gradients: map<Id, Gradient>, touched: set<Id>, taken: nat)
    requires Proper(t) && Accounted(t, done, t.output, 0, done, gradients, touched, taken)
    requires m in t.needed && m !in done && m in gradients
    ensures m <= t.output
    ensures Accounted(t, done, m, 0, done + {m}, gradients, touched, taken + t.g[m].size)
    ensures Accounted(t, done, m, 0, done + {m}, gradients, touched, taken)
  {
    SizesMore(t.g, done, t.output, m);
    hide Sizes, AllEdgeSizes, EdgesInto;
  }

  lemma AccountedSkip(t: Task, done: set<Id>, m: Id, p: nat, next: nat, received: set<Id>, gradients: map<Id, Gradient>,
                      touched: set<Id>, taken: nat)
    requires Proper(t) && m <= t.output && next == p + 1 && p < |t.g[m].inputs|
    requires Accounted(t, done, m, p, received, gradients, touched, taken)
    requires t.g[m].inputs[p].None? || t.g[m].inputs[p].value !in t.needed
    ensures Accounted(t, done, m, next, received, gradients, touched, taken)
  {
    hide Sizes, AllEdgeSizes, Proper;
  }

  lemma AccountedFirst(t: Task, done: set<Id>, m: Id, p: nat, next: nat, received: set<Id>,
                       gradients: map<Id, Gradient>, touched: set<Id>, taken: nat, n: Id, gradient: Gradient)
    requires Proper(t) && m <= t.output && next == p + 1 && p < |t.g[m].inputs|
    requires Accounted(t, done, m, p, received, gradients, touched, taken)
    requires t.g[m].inputs[p] == Some(n) && n in t.needed && n !in received && n < m && n !in gradients
    ensures Accounted(t, done, m, next, received, gradients[n := gradient], touched + {n}, taken + t.g[n].size)
  {
    SizesMore(t.g, touched, t.output, n);
    hide Sizes, AllEdgeSizes, Proper;
  }

  lemma AccountedCombined(t: Task, done: set<Id>, m: Id, p: nat, next: nat, received: set<Id>,
                          gradients: map<Id, Gradient>, touched: set<Id>, taken: nat, n: Id, gradient: Gradient)
    requires Proper(t) && m <= t.output && next == p + 1 && p < |t.g[m].inputs|
    requires Accounted(t, done, m, p, received, gradients, touched, taken)
    requires t.g[m].inputs[p] == Some(n) && n in t.needed && n < m && n in gradients
    ensures Accounted(t, done, m, next, received, gradients[n := gradient], touched, taken + 2 * t.g[n].size)
  {
    hide Sizes, AllEdgeSizes, Proper;
  }

  lemma AccountedEnd(t: Task, done: set<Id>, m: Id, gradients: map<Id, Gradient>, gradients': map<Id, Gradient>,
                     touched: set<Id>, taken: nat)
    requires Proper(t) && m <= t.output && m !in done
    requires Accounted(t, done, m, |t.g[m].inputs|, done + {m}, gradients, touched, taken)
    requires gradients' == gradients || gradients' == gradients - {m}
    ensures Accounted(t, done + {m}, t.output, 0, done + {m}, gradients', touched, taken)
  {
    AllEdgeSizesMore(t.g, t.needed, done, t.output, m);
    hide Sizes, AllEdgeSizes, Proper;
  }

  /** No more than the bound has been allocated. */
  ghost predicate Spent(t: Task, taken: nat)
    requires Proper(t)
  {
    taken <= 2 * AllEdgeSizes(t.g, t.needed, t.needed, t.output) + t.g[t.output].size
  }

  /** This holds at any moment. */
  lemma AccountedBound(t: Task, done: set<Id>, m: Id, p: nat, received: set<Id>, gradients: map<Id, Gradient>,
                       touched: set<Id>, taken: nat)
    requires Proper(t) && m <= t.output && p <= |t.g[m].inputs| && done <= t.needed && m in t.needed && m !in done
    requires Accounted(t, done, m, p, received, gradients, touched, taken)
    ensures Spent(t, taken)
  {
    EdgeSizesMonotone(t.g, t.needed, m, p, |t.g[m].inputs|);
    AllEdgeSizesMore(t.g, t.needed, done, t.output, m);
    AllEdgeSizesMonotone(t.g, t.needed, done + {m}, t.needed, t.output);
    SizesMonotone(t.g, received, touched + {t.output}, t.output);
    SizesMore(t.g, touched, t.output, t.output);
    hide Sizes, AllEdgeSizes, EdgeSizes, Proper;
  }

  lemma AccountedFinally(t: Task, gradients: map<Id, Gradient>, touched: set<Id>, taken: nat)
    requires Proper(t) && Accounted(t, t.needed, t.output, 0, t.needed, gradients, touched, taken)
    ensures Spent(t, taken)
  {
    SizesMonotone(t.g, t.needed, touched + {t.output}, t.output);
    SizesMore(t.g, touched, t.output, t.output);
    hide Sizes, AllEdgeSizes, Proper;
  }
}
