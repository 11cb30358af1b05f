/** How each operation of the consumer on its pending completions keeps the invariant, on values. */
module PendingSafety {
  import opened Options
  import opened Sequences
  import opened AdmissionIndex
  import opened ProgressWorld
  import opened ProgressPaths
  import opened ProgressSafety

  /** Drained by its own header, or because the connection is accounted for. */
  predicate IsDrainedIn(w: World, c: nat) { RequestOf(w, c).drained || w.accounted }

  /** A completion seen not to be drained needs no exemption. */
  lemma GoodUndrained(p: Pending, tree: Tree, w: World, d: Directory, e: Exempt, c: nat)
    requires Good(p, tree, w, d, e) && e.handled <= {c} && e.taken == {} && !RequestOf(w, c).drained
    ensures Good(p, tree, w, d, e.(handled := {}))
  {
    hide Proper, Reached, Linked, Branched, Entered, Tracked, Indexed;
    forall b: nat ensures Covered(RequestOf(w, b), AttentionTo(Observing(p), b), b in {}, b in {}) {
      assert Covered(RequestOf(w, b), AttentionTo(Observing(p), b), b in e.handled, b in e.taken);
    }
  }

  lemma GoodWeaken(p: Pending, tree: Tree, w: World, d: Directory, e: Exempt, handled: set<nat>)
    requires Good(p, tree, w, d, e) && e.handled <= handled
    ensures Good(p, tree, w, d, e.(handled := handled))
  {
    hide Proper, Reached, Linked, Branched, Entered, Tracked, Indexed;
    forall b: nat ensures Covered(RequestOf(w, b), AttentionTo(Observing(p), b), b in handled, b in e.taken) {
      assert Covered(RequestOf(w, b), AttentionTo(Observing(p), b), b in e.handled, b in e.taken);
    }
  }

  /** Changes of the record that do not touch what is observed. */
  lemma GoodRecord(p: Pending, p': Pending, tree: Tree, tree': Tree, w: World, d: Directory, e: Exempt, e': Exempt)
    requires Good(p, tree, w, d, e) && Observing(p') == Observing(p)
    requires e'.handled == e.handled && e'.taken == e.taken && e'.hole == e.hole
    requires Consistent(p', tree', w, d, e'.failing, e'.waking)
    ensures Good(p', tree', w, d, e')
  {
    hide Coherent, Safe, Records, WellLinked, Consistent;
  }

  lemma GoodUnresolved(p: Pending, tree: Tree, w: World, d: Directory, e: Exempt, c: nat)
    requires Good(p, tree, w, d, e) && c in p.resolved
    ensures Good(p.(unresolved := p.unresolved - {c}), tree, w, d, e)
  {
    hide Proper, Reached, Linked, Branched, Entered, Covered;
    var p' := p.(unresolved := p.unresolved - {c});
    forall b: nat ensures Tracked(p', d, e.failing, b) && Indexed(p', tree, e.waking, b) {
      assert Tracked(p, d, e.failing, b) && Indexed(p, tree, e.waking, b);
    }
    GoodRecord(p, p', tree, tree, w, d, e, e);
  }

  lemma GoodFallback(p: Pending, tree: Tree, w: World, d: Directory, c: nat)
    requires Good(p, tree, w, d, NONE.(failing := {c})) && c >= MAX_SAFE_INTEGER
    ensures Good(p.(fallback := p.fallback + {c}), tree, w, d, NONE)
  {
    hide Proper, Reached, Linked, Branched, Entered, Covered;
    var p' := p.(fallback := p.fallback + {c});
    forall b: nat ensures Tracked(p', d, {}, b) && Indexed(p', tree, {}, b) {
      assert Tracked(p, d, {c}, b) && Indexed(p, tree, {}, b);
    }
    GoodRecord(p, p', tree, tree, w, d, NONE.(failing := {c}), NONE);
  }

  /** A fresh index over every live id, all active. */
  ghost predicate Indexes(tree: Tree, live: set<nat>, limit: nat) {
    forall c: nat :: Lookup(tree, c) == if c in live && c < limit then Some(true) else None
  }

  lemma GoodOrdered(p: Pending, tree: Tree, tree': Tree, w: World, d: Directory, e: Exempt)
    requires Good(p, tree, w, d, e) && !p.isOrdered && Indexes(tree', p.live, MAX_SAFE_INTEGER)
    ensures Good(p.(isOrdered := true), tree', w, d, e)
  {
    hide Proper, Reached, Linked, Branched, Entered, Covered;
    var p' := p.(isOrdered := true);
    forall b: nat ensures Tracked(p', d, e.failing, b) && Indexed(p', tree', e.waking, b) {
      assert Tracked(p, d, e.failing, b);
    }
    GoodRecord(p, p', tree, tree', w, d, e, e);
  }

  lemma NeverSubscribed(p: Pending, tree: Tree, w: World, d: Directory, e: Exempt, c: nat)
    requires Good(p, tree, w, d, e) && !RequestOf(w, c).subscribed
    ensures c !in d.paths
  {
    assert Proper(RequestOf(w, c)) && RequestOf(w, c).path == PathOf(d, c);
  }

  /** A failed completion gets a path, and is inspected until the worker acknowledges it. */
  lemma GoodEnrolled(p: Pending, tree: Tree, tree': Tree, w: World, d: Directory, d': Directory, c: nat, path: Path)
    requires Good(p, tree, w, d, NONE.(failing := {c})) && !RequestOf(w, c).subscribed
    requires p.isOrdered && c in p.live && c in p.resolved && c !in p.unresolved && c < MAX_SAFE_INTEGER
    requires WellLinked(d') && Records(d', Enroll(w, c, path)) && Coherent(Enroll(w, c, path), None)
    requires d'.paths == d.paths[c := path] && WokenUp(tree, tree', c)
    ensures Good(p.(arming := p.arming + {c}), tree', Enroll(w, c, path), d', NONE)
  {
    hide Proper, Reached, Linked, Branched, Entered;
    var p', w' := p.(arming := p.arming + {c}), Enroll(w, c, path);
    forall b: nat ensures Tracked(p', d', {}, b) && Indexed(p', tree', {}, b) {
      assert Tracked(p, d, {c}, b) && Indexed(p, tree, {}, b);
    }
    forall b: nat ensures Covered(RequestOf(w', b), AttentionTo(Observing(p'), b), b in {}, b in {}) {
      assert Covered(RequestOf(w, b), AttentionTo(Observing(p), b), b in {}, b in {});
      if b == c {
        FreshCovered(p, tree, w, d, c, path);
      }
    }
  }

  lemma FreshCovered(p: Pending, tree: Tree, w: World, d: Directory, c: nat, path: Path)
    requires Good(p, tree, w, d, NONE.(failing := {c})) && !RequestOf(w, c).subscribed
    ensures Covered(RequestOf(Enroll(w, c, path), c), Attention(true, false, false), false, false)
    ensures Covered(RequestOf(Enroll(w, c, path), c),
                    AttentionTo(Observing(p.(arming := p.arming + {c})), c), false, false)
  {
    assert Proper(RequestOf(w, c));
  }

  lemma GoodSubscribed(p: Pending, tree: Tree, w: World, d: Directory, c: nat)
    requires Good(p, tree, w, d, NONE) && c in d.paths
    ensures Good(p, tree, Subscribe(w, c, d.paths[c]), d, NONE)
  {
    hide Linked, Branched, Entered, Tracked, Indexed;
    var w' := Subscribe(w, c, d.paths[c]);
    forall b: nat
      ensures Proper(RequestOf(w', b)) && Reached(w'.words, RequestOf(w', b), None)
      ensures Covered(RequestOf(w', b), AttentionTo(Observing(p), b), b in {}, b in {})
      ensures RequestOf(w', b).path == PathOf(d, b) && RequestOf(w', b).subscribed == RequestOf(w, b).subscribed
    {
      assert Proper(RequestOf(w, b)) && Reached(w.words, RequestOf(w, b), None);
      assert Covered(RequestOf(w, b), AttentionTo(Observing(p), b), b in {}, b in {});
      assert RequestOf(w, b).path == PathOf(d, b);
    }
    ConsistentLike(p, tree, w, w', d, {}, {});
  }

  /** Without a subscription the completion is inspected always. */
  lemma GoodUnenrolled(p: Pending, tree: Tree, tree': Tree, w: World, d: Directory, d': Directory, c: nat)
    requires Good(p, tree, w, d, NONE) && c in p.live
    requires var w' := UnenrollIf(w, d, c); WellLinked(d') && Records(d', w') && Coherent(w', None)
    requires d'.paths == d.paths - {c} && if p.isOrdered then WokenUp(tree, tree', c) else tree' == tree
    ensures Good(p.(arming := p.arming - {c}, fallback := p.fallback + {c}), tree', UnenrollIf(w, d, c), d', NONE)
  {
    hide Proper, Reached, Linked, Branched, Entered;
    var p' := p.(arming := p.arming - {c}, fallback := p.fallback + {c});
    var w' := UnenrollIf(w, d, c);
    forall b: nat ensures Tracked(p', d', {}, b) && Indexed(p', tree', {}, b) {
      assert Tracked(p, d, {}, b) && Indexed(p, tree, {}, b);
    }
    forall b: nat ensures Covered(RequestOf(w', b), AttentionTo(Observing(p'), b), b in {}, b in {}) {
      assert Covered(RequestOf(w, b), AttentionTo(Observing(p), b), b in {}, b in {});
    }
  }

  /** The outcome of a completion is known, and its failure is being handled. */
  lemma GoodResolved(p: Pending, tree: Tree, w: World, d: Directory, e: Exempt, c: nat)
    requires Good(p, tree, w, d, e) && e.failing == {} && c < p.total && c !in p.resolved
    ensures Good(p.(resolved := p.resolved + {c}), tree, w, d, e.(failing := {c}))
  {
    hide Proper, Reached, Linked, Branched, Entered, Covered;
    var p' := p.(resolved := p.resolved + {c});
    forall b: nat ensures Tracked(p', d, {c}, b) && Indexed(p', tree, e.waking, b) {
      assert Tracked(p, d, {}, b) && Indexed(p, tree, e.waking, b);
    }
    GoodRecord(p, p', tree, tree, w, d, e, e.(failing := {c}));
  }

  /** A handled failure is tracked again. */
  lemma GoodHandled(p: Pending, tree: Tree, w: World, d: Directory, e: Exempt, c: nat)
    requires Good(p, tree, w, d, e) && e.failing <= {c}
    requires c in p.live ==> c in p.fallback || c in d.paths || c !in p.resolved
    ensures Good(p, tree, w, d, e.(failing := {}))
  {
    hide Proper, Reached, Linked, Branched, Entered, Covered;
    forall b: nat ensures Tracked(p, d, {}, b) && Indexed(p, tree, e.waking, b) {
      assert Tracked(p, d, e.failing, b) && Indexed(p, tree, e.waking, b);
    }
    GoodRecord(p, p, tree, tree, w, d, e, e.(failing := {}));
  }

  function Deleted(p: Pending, c: nat): Pending {
    p.(live := p.live - {c}, unresolved := p.unresolved - {c}, arming := p.arming - {c}, fallback := p.fallback - {c},
       publishing := p.publishing - {c}, changed := p.changed - {c}, checked := p.checked - {c})
  }

  function UnenrollIf(w: World, d: Directory, c: nat): World { if c in d.paths then Unenroll(w, c) else w }

  /** A deleted completion takes all that was exempt with it. */
  lemma GoodDeleted(p: Pending, tree: Tree, tree': Tree, w: World, d: Directory, d': Directory, e: Exempt, c: nat)
    requires Good(p, tree, w, d, e) && e.failing <= {c} && e.handled <= {c} && e.taken == e.waking == {}
    requires e.hole == None
    requires var w' := UnenrollIf(w, d, c); WellLinked(d') && Records(d', w') && Coherent(w', None)
    requires d'.paths == d.paths - {c} && (p.isOrdered ==> Updated(tree, tree', c, None))
    ensures Good(Deleted(p, c), tree', UnenrollIf(w, d, c), d', NONE)
  {
    hide Proper, Reached, Linked, Branched, Entered;
    var p', w' := Deleted(p, c), UnenrollIf(w, d, c);
    forall b: nat ensures Tracked(p', d', {}, b) && Indexed(p', tree', {}, b) {
      assert Tracked(p, d, e.failing, b) && Indexed(p, tree, {}, b);
    }
    DeletedCovered(p, w, d, e, c);
    assert forall b: nat :: RequestOf(w', b).subscribed == RequestOf(w, b).subscribed;
  }

  lemma DeletedCovered(p: Pending, w: World, d: Directory, e: Exempt, c: nat)
    requires Safe(w, Observing(p), e.handled, e.taken) && Records(d, w) && e.handled <= {c} && e.taken == {}
    ensures Safe(UnenrollIf(w, d, c), Observing(Deleted(p, c)), {}, {})
  {
    var p', w' := Deleted(p, c), UnenrollIf(w, d, c);
    forall b: nat ensures Covered(RequestOf(w', b), AttentionTo(Observing(p'), b), b in {}, b in {}) {
      assert Covered(RequestOf(w, b), AttentionTo(Observing(p), b), b in e.handled, b in e.taken);
      assert RequestOf(w, c).path == PathOf(d, c);
    }
  }

  lemma GoodRetired(p: Pending, tree: Tree, w: World, d: Directory, e: Exempt, c: nat)
    requires Good(p, tree, w, d, e) && c < p.total && c !in p.live
    ensures Good(p.(retired := p.retired + {c}), tree, w, d, e)
  {
    hide Proper, Reached, Linked, Branched, Entered, Covered;
    var p' := p.(retired := p.retired + {c});
    forall b: nat ensures Tracked(p', d, e.failing, b) && Indexed(p', tree, e.waking, b) {
      assert Tracked(p, d, e.failing, b) && Indexed(p, tree, e.waking, b);
    }
    GoodRecord(p, p', tree, tree, w, d, e, e);
  }

  function Added(p: Pending): Pending {
    p.(total := p.total + 1, live := p.live + {p.total}, unresolved := p.unresolved + {p.total})
  }

  lemma GoodAdded(p: Pending, tree: Tree, tree': Tree, w: World, d: Directory)
    requires Good(p, tree, w, d, NONE)
    requires if p.isOrdered && p.total < MAX_SAFE_INTEGER then Updated(tree, tree', p.total, Some(true))
             else tree' == tree
    ensures Good(Added(p), tree', w, d, NONE)
  {
    hide Proper, Reached, Linked, Branched, Entered, Covered;
    var p' := Added(p);
    assert Tracked(p, d, {}, p.total);
    forall b: nat ensures Tracked(p', d, {}, b) && Indexed(p', tree', {}, b) {
      assert Tracked(p, d, {}, b) && Indexed(p, tree, {}, b);
    }
    GoodRecord(p, p', tree, tree', w, d, NONE, NONE);
  }

  /** Opening and closing a checkpoint. */
  lemma GoodDepth(p: Pending, tree: Tree, w: World, d: Directory, depth: nat)
    requires Good(p, tree, w, d, NONE) && p.isOrdered && (depth == 0 ==> p.checked == {})
    ensures Good(p.(depth := depth), tree, w, d, NONE)
  {
    hide Proper, Reached, Linked, Branched, Entered, Covered;
    var p' := p.(depth := depth);
    forall b: nat ensures Tracked(p', d, {}, b) && Indexed(p', tree, {}, b) {
      assert Tracked(p, d, {}, b) && Indexed(p, tree, {}, b);
    }
    GoodRecord(p, p', tree, tree, w, d, NONE, NONE);
  }

  /** The record just before a completion is refreshed: its flags have been read. */
  function Inspected(p: Pending, c: nat, acknowledged: bool, publishing: bool): Pending {
    p.(arming := if acknowledged then p.arming - {c} else p.arming,
       publishing := if publishing then p.publishing else p.publishing - {c},
       changed := p.changed - {c}, checked := p.checked + {c})
  }

  lemma GoodInspected(p: Pending, tree: Tree, w: World, d: Directory, c: nat)
    requires Good(p, tree, w, d, NONE) && p.depth > 0
    ensures Good(Inspected(p, c, RequestOf(w, c).acknowledged, RequestOf(w, c).publishing), tree, w, d,
                 NONE.(handled := {c}))
  {
    hide Reached, Linked, Branched, Entered;
    var p' := Inspected(p, c, RequestOf(w, c).acknowledged, RequestOf(w, c).publishing);
    forall b: nat ensures Tracked(p', d, {}, b) && Indexed(p', tree, {}, b) {
      assert Tracked(p, d, {}, b) && Indexed(p, tree, {}, b);
    }
    forall b: nat ensures Covered(RequestOf(w, b), AttentionTo(Observing(p'), b), b in {c}, b in {}) {
      assert Proper(RequestOf(w, b));
      assert Covered(RequestOf(w, b), AttentionTo(Observing(p), b), b in {}, b in {});
    }
  }

  /** The terminal scan only forgets the change note. */
  lemma GoodReset(p: Pending, tree: Tree, w: World, d: Directory, c: nat)
    requires Good(p, tree, w, d, NONE)
    ensures Good(p.(changed := p.changed - {c}), tree, w, d, NONE.(handled := {c}))
  {
    hide Proper, Reached, Linked, Branched, Entered;
    var p' := p.(changed := p.changed - {c});
    forall b: nat ensures Tracked(p', d, {}, b) && Indexed(p', tree, {}, b) {
      assert Tracked(p, d, {}, b) && Indexed(p, tree, {}, b);
    }
    forall b: nat ensures Covered(RequestOf(w, b), AttentionTo(Observing(p'), b), b in {c}, b in {}) {
      assert Covered(RequestOf(w, b), AttentionTo(Observing(p), b), b in {}, b in {});
    }
  }

  /** An entry of the index may be active, and inactive when nothing is awaited. */
  lemma GoodActivity(p: Pending, tree: Tree, tree': Tree, w: World, d: Directory, c: nat, active: bool)
    requires Good(p, tree, w, d, NONE) && (!active ==> !Awaited(p, c))
    requires Updated(tree, tree', c, if Lookup(tree, c).Some? then Some(active) else None)
    ensures Good(p, tree', w, d, NONE)
  {
    hide Proper, Reached, Linked, Branched, Entered, Covered;
    forall b: nat ensures Indexed(p, tree', {}, b) {
      assert Indexed(p, tree, {}, b);
    }
    GoodRecord(p, p, tree, tree', w, d, NONE, NONE);
  }

  lemma GoodChecked(p: Pending, tree: Tree, w: World, d: Directory, checked: set<nat>)
    requires Good(p, tree, w, d, NONE) && checked <= p.checked
    ensures Good(p.(checked := checked), tree, w, d, NONE)
  {
    hide Proper, Reached, Linked, Branched, Entered, Covered;
    var p' := p.(checked := checked);
    forall b: nat ensures Tracked(p', d, {}, b) && Indexed(p', tree, {}, b) {
      assert Tracked(p, d, {}, b) && Indexed(p, tree, {}, b);
    }
    GoodRecord(p, p', tree, tree, w, d, NONE, NONE);
  }

  /** With nothing enrolled the index can go: the next failure makes a new one. */
  lemma GoodUnordered(p: Pending, tree: Tree, w: World, d: Directory)
    requires Good(p, tree, w, d, NONE) && d.paths == map[] && p.depth == 0
    ensures Good(p.(isOrdered := false), tree, w, d, NONE)
  {
    hide Proper, Reached, Linked, Branched, Entered, Covered;
    var p' := p.(isOrdered := false);
    forall b: nat ensures Tracked(p', d, {}, b) && Indexed(p', tree, {}, b) {
      assert Tracked(p, d, {}, b);
    }
    GoodRecord(p, p', tree, tree, w, d, NONE, NONE);
  }

  /**
   * What no operation of the consumer undoes, n being the length of the script
   * of callbacks still to come: completions that are gone stay gone, outcomes
   * stay, and inside a checkpoint no live completion becomes inactive.
   */
  ghost predicate Onward(v: View, n: nat, v': View, n': nat) {
    && Grows(v.w, v'.w)
    && n' <= n && (n' == n ==> v'.p.total == v.p.total)
    && v.p.total <= v'.p.total && v'.p.depth == v.p.depth
    && v.p.resolved <= v'.p.resolved
    && (forall c: nat :: c < v.p.total && c in v'.p.live ==> c in v.p.live)
    && (v.p.depth > 0 ==> v'.p.isOrdered && StillActive(v, v'))
  }

  ghost predicate StillActive(v: View, v': View) {
    forall c: nat :: c < v.p.total && Activated(v.tree, c) && c in v'.p.live ==> Activated(v'.tree, c)
  }

  lemma OnwardTransitive(a: View, i: nat, b: View, j: nat, c: View, k: nat)
    requires Onward(a, i, b, j) && Onward(b, j, c, k)
    ensures Onward(a, i, c, k)
  {
    GrowsTransitive(a.w, b.w, c.w);
    hide Grows, Lookup;
    forall x: nat | x < a.p.total && x in c.p.live ensures x in a.p.live && x in b.p.live {
      assert x in b.p.live;
    }
  }

  lemma LaterDrained(w: World, w': World, c: nat)
    requires Later(w, w')
    ensures IsDrainedIn(w, c) ==> IsDrainedIn(w', c)
    ensures RequestOf(w, c).drained ==> RequestOf(w', c).drained
    ensures RequestOf(w, c).acknowledged ==> RequestOf(w', c).acknowledged
    ensures RequestOf(w', c).subscribed == RequestOf(w, c).subscribed
    ensures RequestOf(w, c).status != 0 ==> RequestOf(w', c).status != 0
  {
    assert After(RequestOf(w, c), RequestOf(w', c));
  }

  /** The live ids below i, all active. */
  ghost predicate IndexesBelow(tree: Tree, live: set<nat>, i: nat) {
    forall c: nat :: Lookup(tree, c) == if c in live && c < MAX_SAFE_INTEGER && c < i then Some(true) else None
  }

  lemma NotYet(tree: Tree, live: set<nat>, i: nat)
    requires IndexesBelow(tree, live, i)
    ensures Lookup(tree, i).None?
  {
  }

  lemma IndexesMore(tree: Tree, tree': Tree, live: set<nat>, i: nat)
    requires IndexesBelow(tree, live, i)
    requires if i in live && i < MAX_SAFE_INTEGER then Updated(tree, tree', i, Some(true)) else tree' == tree
    ensures IndexesBelow(tree', live, i + 1)
  {
    forall c: nat
      ensures Lookup(tree', c) == if c in live && c < MAX_SAFE_INTEGER && c < i + 1 then Some(true) else None
    {
      assert Lookup(tree, c) == if c in live && c < MAX_SAFE_INTEGER && c < i then Some(true) else None;
    }
  }

  lemma IndexesAll(p: Pending, tree: Tree, tree': Tree, w: World, d: Directory, e: Exempt)
    requires Good(p, tree, w, d, e) && IndexesBelow(tree', p.live, p.total)
    ensures Indexes(tree', p.live, MAX_SAFE_INTEGER)
  {
    forall c: nat ensures Lookup(tree', c) == if c in p.live && c < MAX_SAFE_INTEGER then Some(true) else None {
      assert Tracked(p, d, e.failing, c);
    }
  }

  /** Handling a failure changes neither which completions there are nor what is active. */
  ghost predicate Steady(v: View, v': View) {
    && Grows(v.w, v'.w)
    && v'.p.total == v.p.total && v'.p.depth == v.p.depth && v'.p.live == v.p.live
    && v'.p.resolved == v.p.resolved && v'.p.retired == v.p.retired
    && (v.p.isOrdered ==> v'.p.isOrdered && forall c: nat :: Activated(v.tree, c) ==> Activated(v'.tree, c))
  }

  lemma SteadyStill(v: View, v': View)
    requires v'.w == v.w || Later(v.w, v'.w)
    requires v'.p.total == v.p.total && v'.p.depth == v.p.depth && v'.p.live == v.p.live
    requires v'.p.resolved == v.p.resolved && v'.p.retired == v.p.retired
    requires v.p.isOrdered ==> v'.p.isOrdered && v'.tree == v.tree
    ensures Steady(v, v')
  {
    if v'.w != v.w {
      LaterGrows(v.w, v'.w);
    }
    hide Later;
  }

  lemma SteadyTransitive(a: View, b: View, c: View)
    requires Steady(a, b) && Steady(b, c)
    ensures Steady(a, c)
  {
    GrowsTransitive(a.w, b.w, c.w);
    hide Grows, Lookup;
  }

  lemma SteadyEnrolled(v: View, tree': Tree, c: nat, path: Path)
    requires WokenUp(v.tree, tree', c)
    ensures Steady(v, View(Enroll(v.w, c, path), tree', v.p.(arming := v.p.arming + {c})))
  {
    var w' := Enroll(v.w, c, path);
    forall b: nat ensures Kept(RequestOf(v.w, b), RequestOf(w', b)) {
    }
  }

  lemma SteadySubscribed(v: View, c: nat, path: Path)
    ensures Steady(v, v.(w := Subscribe(v.w, c, path)))
  {
    var w' := Subscribe(v.w, c, path);
    forall b: nat ensures Kept(RequestOf(v.w, b), RequestOf(w', b)) {
    }
  }

  lemma SteadyUnenrolled(v: View, d: Directory, tree': Tree, c: nat)
    requires if v.p.isOrdered then WokenUp(v.tree, tree', c) else tree' == v.tree
    ensures Steady(v, View(UnenrollIf(v.w, d, c), tree',
                           v.p.(arming := v.p.arming - {c}, fallback := v.p.fallback + {c})))
  {
    var w' := UnenrollIf(v.w, d, c);
    forall b: nat ensures Kept(RequestOf(v.w, b), RequestOf(w', b)) {
    }
  }

  /** A completion that is gone is not enrolled, and nothing is awaited of it. */
  lemma GoneUnenrolled(p: Pending, tree: Tree, w: World, d: Directory, c: nat)
    requires Good(p, tree, w, d, NONE) && c !in p.live
    ensures c !in d.paths && c !in p.arming
  {
    assert Tracked(p, d, {}, c);
  }

  /** A failed completion without a path is inspected always. */
  lemma GoodUnbuilt(p: Pending, tree: Tree, tree': Tree, w: World, d: Directory, d': Directory, c: nat)
    requires Good(p, tree, w, d, NONE.(failing := {c})) && p.isOrdered && WokenUp(tree, tree', c)
    requires WellLinked(d') && Records(d', w) && d'.paths == d.paths
    ensures Good(p.(fallback := p.fallback + {c}), tree', w, d', NONE)
  {
    hide Proper, Reached, Linked, Branched, Entered, Covered;
    var p' := p.(fallback := p.fallback + {c});
    forall b: nat ensures Tracked(p', d', {}, b) && Indexed(p', tree', {}, b) {
      assert Tracked(p, d, {c}, b) && Indexed(p, tree, {}, b);
    }
  }

  lemma SteadyUnbuilt(v: View, tree': Tree, c: nat)
    requires WokenUp(v.tree, tree', c)
    ensures Steady(v, View(v.w, tree', v.p.(fallback := v.p.fallback + {c})))
  {
    forall b: nat ensures Kept(RequestOf(v.w, b), RequestOf(v.w, b)) {
    }
  }

  /** Exemptions may be kept longer than needed. */
  lemma GoodLoosen(p: Pending, tree: Tree, w: World, d: Directory, c: nat, handled: set<nat>)
    requires Good(p, tree, w, d, NONE)
    ensures Good(p, tree, w, d, NONE.(failing := {c}, handled := handled))
  {
    hide Proper, Reached, Linked, Branched, Entered, Covered;
    GoodWeaken(p, tree, w, d, NONE, handled);
    var e := NONE.(handled := handled);
    forall b: nat ensures Tracked(p, d, {c}, b) && Indexed(p, tree, {}, b) {
      assert Tracked(p, d, {}, b) && Indexed(p, tree, {}, b);
    }
    GoodRecord(p, p, tree, tree, w, d, e, e.(failing := {c}));
  }

  lemma SteadyOnward(v: View, n: nat, v': View)
    requires Steady(v, v')
    requires v.p.depth > 0 ==> v.p.isOrdered
    ensures Onward(v, n, v', n)
  {
    hide Grows, Lookup;
  }

  lemma DepthOrdered(p: Pending, tree: Tree, w: World, d: Directory, e: Exempt)
    requires Good(p, tree, w, d, e)
    ensures p.depth > 0 ==> p.isOrdered
  {
  }

  /** The outcome is recorded; nothing else changes. */
  lemma ResolvedOnward(v: View, n: nat, v': View, c: nat)
    requires (v'.w == v.w || Later(v.w, v'.w)) && v'.tree == v.tree
    requires v'.p == v.p.(resolved := v'.p.resolved) && v.p.resolved <= v'.p.resolved
    requires v.p.depth > 0 ==> v.p.isOrdered
    ensures Onward(v, n, v', n)
  {
    if v'.w != v.w {
      LaterGrows(v.w, v'.w);
    }
    hide Later;
  }

  lemma UnresolvedUnsubscribed(p: Pending, tree: Tree, w: World, d: Directory, e: Exempt, c: nat)
    requires Good(p, tree, w, d, e)
    ensures c !in p.resolved ==> !RequestOf(w, c).subscribed && c !in d.paths
    ensures RequestOf(w, c).status <= 2 && (RequestOf(w, c).status == 1 ==> RequestOf(w, c).drained)
    ensures c in p.retired ==> c !in p.live && c !in d.paths
    ensures c in p.live ==> c < p.total
  {
    assert Proper(RequestOf(w, c)) && Tracked(p, d, e.failing, c);
  }

  lemma GoodVacant(p: Pending, tree: Tree, w: World, d: Directory, e: Exempt, c: nat)
    requires Good(p, tree, w, d, e) && e.handled <= {c} && e.taken == {} && c !in d.paths
    ensures Good(p, tree, w, d, e.(handled := {}))
  {
    hide Proper, Reached, Linked, Branched, Entered, Tracked, Indexed;
    forall b: nat ensures Covered(RequestOf(w, b), AttentionTo(Observing(p), b), b in {}, b in {}) {
      assert Covered(RequestOf(w, b), AttentionTo(Observing(p), b), b in e.handled, b in e.taken);
      assert RequestOf(w, c).path == PathOf(d, c);
    }
  }

  /** Drained, and its outcome published, known, or overruled by retirement. */
  predicate IsSettled(v: View, c: nat) {
    IsDrainedIn(v.w, c) && (c in v.p.resolved || RequestOf(v.w, c).status != 0 || v.w.generation)
  }

  lemma DeletedOnward(v: View, n: nat, v': View, c: nat)
    requires (v'.w == v.w || v'.w == Unenroll(v.w, c)) && v'.p == Deleted(v.p, c)
    requires v.p.depth > 0 ==> v.p.isOrdered
    requires v.p.isOrdered ==> Updated(v.tree, v'.tree, c, None)
    ensures Onward(v, n, v', n)
  {
    forall b: nat ensures Kept(RequestOf(v.w, b), RequestOf(v'.w, b)) {
    }
    hide Lookup;
  }

  lemma RetiredOnward(v: View, n: nat, c: nat)
    requires v.p.depth > 0 ==> v.p.isOrdered
    ensures Onward(v, n, v.(p := v.p.(retired := v.p.retired + {c})), n)
  {
  }

  lemma LaterOnward(v: View, n: nat, w': World)
    requires Later(v.w, w') && (v.p.depth > 0 ==> v.p.isOrdered)
    ensures Onward(v, n, v.(w := w'), n)
  {
    LaterGrows(v.w, w');
    hide Later;
  }

  lemma LaterFlags(w: World, w': World)
    requires Later(w, w')
    ensures w.generation ==> w'.generation
    ensures w.accounted ==> w'.accounted
  {
  }

  lemma GoodExempt(p: Pending, tree: Tree, w: World, d: Directory, c: nat, handled: set<nat>)
    requires Good(p, tree, w, d, NONE.(handled := handled))
    ensures Good(p, tree, w, d, NONE.(failing := {c}, handled := handled))
  {
    hide Proper, Reached, Linked, Branched, Entered, Covered;
    var e := NONE.(handled := handled);
    forall b: nat ensures Tracked(p, d, {c}, b) && Indexed(p, tree, {}, b) {
      assert Tracked(p, d, {}, b) && Indexed(p, tree, {}, b);
    }
    GoodRecord(p, p, tree, tree, w, d, e, e.(failing := {c}));
  }

  lemma DrainedByHeader(w: World, c: nat)
    ensures RequestOf(w, c).drained ==> IsDrainedIn(w, c)
  {
  }

  lemma SteadyKeeps(v: View, v': View)
    requires Steady(v, v')
    ensures v'.p.resolved == v.p.resolved && v'.p.live == v.p.live && v'.p.total == v.p.total && v'.p.depth == v.p.depth
  {
  }

  lemma OnwardKeeps(v: View, n: nat, v': View, n': nat, c: nat)
    requires Onward(v, n, v', n')
    ensures n' <= n && v.p.total <= v'.p.total && v'.p.depth == v.p.depth && (n' == n ==> v'.p.total == v.p.total)
    ensures c in v.p.resolved ==> c in v'.p.resolved
    ensures IsDrainedIn(v.w, c) ==> IsDrainedIn(v'.w, c)
    ensures c < v.p.total && c in v'.p.live ==> c in v.p.live
    ensures c < v.p.total && c in v'.p.live && v.p.depth > 0 && Activated(v.tree, c) ==> Activated(v'.tree, c)
    ensures RequestOf(v.w, c).status != 0 ==> RequestOf(v'.w, c).status != 0
    ensures v.w.generation ==> v'.w.generation
    ensures v.w.accounted ==> v'.w.accounted
  {
    assert Kept(RequestOf(v.w, c), RequestOf(v'.w, c));
  }

  lemma OnwardSelf(v: View, n: nat)
    requires v.p.depth > 0 ==> v.p.isOrdered
    ensures Onward(v, n, v, n)
  {
    forall b: nat ensures Kept(RequestOf(v.w, b), RequestOf(v.w, b)) {
    }
    hide Lookup;
  }

  /** Using up the script changes nothing by itself. */
  lemma OnwardShorter(v: View, n: nat, v': View, n': nat)
    requires Onward(v, n, v', n) && n' <= n
    ensures Onward(v, n, v', n')
  {
  }

  lemma AddedOnward(v: View, n: nat, v': View, n': nat)
    requires n' < n && v'.w == v.w && v'.p == Added(v.p) && (v.p.depth > 0 ==> v.p.isOrdered)
    requires forall c: nat :: Activated(v.tree, c) ==> Activated(v'.tree, c)
    ensures Onward(v, n, v', n')
  {
    forall b: nat ensures Kept(RequestOf(v.w, b), RequestOf(v.w, b)) {
    }
    hide Lookup;
  }

  lemma RetireOnward(v: View, n: nat)
    requires v.p.depth > 0 ==> v.p.isOrdered
    ensures Onward(v, n, v.(w := v.w.(generation := true)), n)
  {
    forall b: nat ensures Kept(RequestOf(v.w, b), RequestOf(v.w.(generation := true), b)) {
    }
    hide Lookup;
  }

  /** The connection's own words are no part of any request. */
  lemma GoodGeneration(p: Pending, tree: Tree, w: World, d: Directory)
    requires Good(p, tree, w, d, NONE)
    ensures Good(p, tree, w.(generation := true), d, NONE)
  {
    hide Proper, Covered, Tracked, Indexed;
    var w' := w.(generation := true);
    assert Coherent(w', None) by {
      forall c: nat ensures Proper(RequestOf(w', c)) && Reached(w'.words, RequestOf(w', c), None) {
        assert Proper(RequestOf(w, c)) && Reached(w.words, RequestOf(w, c), None);
      }
    }
    SameRequests(p, tree, w, w', d, NONE, NONE);
  }

  /** What inspection of c at the right time achieves. */
  predicate Retires(v: View, v': View, c: nat) { IsSettled(v, c) ==> c !in v'.p.live }

  /** A resolved live completion is watched or always inspected. */
  lemma ResolvedTracked(p: Pending, tree: Tree, w: World, d: Directory, c: nat, handled: set<nat>)
    requires Good(p, tree, w, d, NONE.(handled := handled)) && c in p.resolved
    ensures c in p.live ==> c in p.fallback || c in d.paths
  {
    assert Tracked(p, d, {}, c);
  }

  lemma AddedIndex(p: Pending, tree: Tree, tree': Tree, w: World, d: Directory)
    requires Good(p, tree, w, d, NONE)
    requires if p.isOrdered && p.total < MAX_SAFE_INTEGER then Updated(tree, tree', p.total, Some(true))
             else tree' == tree
    ensures forall c: nat :: Activated(tree, c) ==> Activated(tree', c)
  {
  }

  lemma NotIndexed(p: Pending, tree: Tree, w: World, d: Directory)
    requires Good(p, tree, w, d, NONE) && p.isOrdered
    ensures Lookup(tree, p.total).None?
  {
    assert Tracked(p, d, {}, p.total) && Indexed(p, tree, {}, p.total);
  }

  predicate Increasing(s: seq<nat>) { forall i, j :: 0 <= i < j < |s| ==> s[i] < s[j] }

  predicate Within(s: seq<nat>, low: int, high: int) { forall c :: c in s ==> low < c <= high }

  lemma IncreasingMore(s: seq<nat>, low: int, high: int, c: nat)
    requires Increasing(s) && Within(s, low, high) && low <= high < c
    ensures Increasing(s + [c]) && Within(s + [c], low, c)
  {
    forall i, j | 0 <= i < j < |s + [c]| ensures (s + [c])[i] < (s + [c])[j] {
      if j == |s| {
        assert s[i] in s;
      }
    }
  }

  lemma IncreasingJoin(s: seq<nat>, low: int, cursor: int, t: seq<nat>, high: int)
    requires Increasing(s) && Within(s, low, cursor) && Increasing(t) && Within(t, cursor, high) && low <= cursor
    ensures Increasing(s + t)
  {
    forall i, j | 0 <= i < j < |s + t| ensures (s + t)[i] < (s + t)[j] {
      if i < |s| <= j {
        assert s[i] in s && t[j - |s|] in t;
      }
    }
  }

  /** Inspecting c could make a difference: its outcome or its drain may be waiting. */
  predicate Urgent(v: View, c: nat) { c !in v.p.resolved || RequestOf(v.w, c).drained }

  predicate Pressing(v: View, c: nat) { Urgent(v, c) || v.w.accounted }

  /** Up to the cursor every urgent completion was inspected in time, and beyond it each one is active. */
  ghost predicate Served(v: View, cursor: int, refreshed: seq<nat>, v': View) {
    forall c: nat :: c in v.p.live && Urgent(v, c) && c in v'.p.live ==>
      (c in refreshed && !IsSettled(v, c)) || (c > cursor && Activated(v'.tree, c))
  }

  /** Every urgent completion was inspected in time. */
  ghost predicate UrgentDone(v: View, refreshed: seq<nat>, v': View) {
    forall c: nat :: c in v.p.live && Urgent(v, c) && c in v'.p.live ==> c in refreshed && !IsSettled(v, c)
  }

  /** From the cursor on every completion was inspected. */
  ghost predicate Scanned(v: View, cursor: int, refreshed: seq<nat>, v': View) {
    forall c: nat :: c in v.p.live && c > cursor && c in v'.p.live ==> c in refreshed && !IsSettled(v, c)
  }

  /**
   * What an advance achieves: of the completions live when it began, every one
   * whose inspection could matter was inspected or is gone, and every one that
   * was ready to retire is gone.
   */
  ghost predicate Completed(v: View, refreshed: seq<nat>, v': View) {
    forall c: nat :: c in v.p.live && Pressing(v, c) && c in v'.p.live ==> c in refreshed && !IsSettled(v, c)
  }

  /** After a collection all urgent completions are active. */
  lemma UrgentActive(v: View, d: Directory, visited: seq<nat>, v': View)
    requires Good(v.p, v.tree, v.w, d, NONE) && v.p.isOrdered && v.p.total < MAX_SAFE_INTEGER
    requires AllMarkedDone(d, v.w, visited) && Reported(v, [], v', visited)
    ensures Served(v, -1, [], v')
  {
    hide Grows, Reached, Proper, Linked, Branched, Entered, Lookup, Distinct;
    forall c: nat | c in v.p.live && Urgent(v, c) && c in v'.p.live ensures Activated(v'.tree, c) {
      assert Tracked(v.p, d, {}, c) && Indexed(v.p, v.tree, {}, c);
      assert Covered(RequestOf(v.w, c), AttentionTo(Observing(v.p), c), c in {}, c in {});
      assert RequestOf(v.w, c).path == PathOf(d, c);
      assert c < v.p.total && Lookup(v.tree, c).Some?;
      var active := Lookup(v.tree, c).value;
      assert Lookup(v.tree, c) == Some(if active then true else false);
      assert Activated(v.tree, c) || !Awaited(v.p, c);
      assert Activated(v.tree, c) || c in d.paths;
      assert Activated(v.tree, c) || RequestOf(v.w, c).reach == 0;
      assert Activated(v.tree, c) || c in visited;
    }
  }

  /** The next active completion is the next urgent one at most. */
  lemma ServedNext(v: View, cursor: int, refreshed: seq<nat>, v': View, next: Option<nat>)
    requires Served(v, cursor, refreshed, v') && IsNextAfter(v'.tree, cursor, next)
    ensures next.Some? ==>
              Served(v, next.value - 1, refreshed, v') && next.value > cursor && Activated(v'.tree, next.value)
    ensures next.None? ==> UrgentDone(v, refreshed, v')
  {
    hide IsSettled, Urgent, Lookup;
  }

  /** Inspecting the next one in time keeps the promise. */
  lemma ServedStep(v: View, n: nat, c: nat, refreshed: seq<nat>, a: View, i: nat, b: View, j: nat)
    requires Served(v, c - 1, refreshed, a) && Onward(v, n, a, i) && Onward(a, i, b, j) && Retires(a, b, c)
    requires a.p.depth > 0 && (forall x: nat :: x in v.p.live ==> x < v.p.total)
    ensures Served(v, c, refreshed + [c], b)
  {
    forall x: nat | x in v.p.live && Urgent(v, x) && x in b.p.live
      ensures (x in refreshed + [c] && !IsSettled(v, x)) || (x > c && Activated(b.tree, x))
    {
      OnwardKeeps(v, n, a, i, x);
      OnwardKeeps(a, i, b, j, x);
    }
    hide Onward, Lookup;
  }

  lemma ServedKept(v: View, n: nat, cursor: int, refreshed: seq<nat>, a: View, i: nat, b: View, j: nat)
    requires Served(v, cursor, refreshed, a) && Onward(v, n, a, i) && Onward(a, i, b, j)
    requires a.p.depth > 0 && (forall x: nat :: x in v.p.live ==> x < v.p.total)
    ensures Served(v, cursor, refreshed, b)
  {
    forall x: nat | x in v.p.live && Urgent(v, x) && x in b.p.live
      ensures (x in refreshed && !IsSettled(v, x)) || (x > cursor && Activated(b.tree, x))
    {
      OnwardKeeps(v, n, a, i, x);
      OnwardKeeps(a, i, b, j, x);
    }
    hide Onward, Lookup;
  }

  /** A scan of the rest completes what the cursor had not reached. */
  lemma ServedScanned(v: View, n: nat, cursor: int, refreshed: seq<nat>, a: View, i: nat, rest: seq<nat>, b: View,
                      j: nat)
    requires Served(v, cursor, refreshed, a) && Onward(v, n, a, i) && Onward(a, i, b, j) && Scanned(a, cursor, rest, b)
    requires forall x: nat :: x in v.p.live ==> x < v.p.total
    ensures UrgentDone(v, refreshed + rest, b)
  {
    forall x: nat | x in v.p.live && Urgent(v, x) && x in b.p.live
      ensures x in refreshed + rest && !IsSettled(v, x)
    {
      OnwardKeeps(v, n, a, i, x);
      OnwardKeeps(a, i, b, j, x);
      if x > cursor {
        assert x in rest;
        SettledKept(v, n, a, i, x);
      }
    }
    hide Onward, Lookup;
  }

  lemma SettledKept(v: View, n: nat, a: View, i: nat, c: nat)
    requires Onward(v, n, a, i)
    ensures IsSettled(v, c) ==> IsSettled(a, c)
  {
    OnwardKeeps(v, n, a, i, c);
  }

  lemma OnwardLonger(v: View, n: nat, v': View, n': nat)
    requires Onward(v, n, v', n')
    ensures Onward(v, n + 1, v', n')
  {
  }

  lemma OnwardWider(v: View, n: nat, v': View, n': nat)
    requires Onward(v, n, v', n')
    ensures Onward(v, n + 1, v', n' + 1)
  {
  }

  /** Whatever has a place in the index is active. */
  predicate Awake(tree: Tree, c: nat) { Lookup(tree, c) != Some(false) }

  lemma AwakeMore(tree: Tree, tree': Tree, c: nat, k: nat)
    requires Updated(tree, tree', c, if Lookup(tree, c).Some? then Some(true) else None) && (k == c || Awake(tree, k))
    ensures Awake(tree', k)
  {
  }

  lemma StaysActiveMore(first: Tree, tree: Tree, tree': Tree, c: nat)
    requires StaysActive(first, tree) && Updated(tree, tree', c, if Lookup(tree, c).Some? then Some(true) else None)
    ensures StaysActive(first, tree')
  {
  }

  ghost predicate ScannedBelow(v: View, cursor: int, limit: int, refreshed: seq<nat>, v': View) {
    forall c: nat :: c in v.p.live && cursor < c < limit && c in v'.p.live ==> c in refreshed && !IsSettled(v, c)
  }

  lemma ScanBegins(v: View, cursor: int)
    ensures ScannedBelow(v, cursor, cursor + 1, [], v)
    ensures Increasing([]) && Within([], cursor, cursor)
  {
  }

  lemma ScannedMore(v: View, n: nat, cursor: int, c: nat, refreshed: seq<nat>, a: View, a': View, i: nat, b: View,
                    j: nat)
    requires ScannedBelow(v, cursor, c, refreshed, a) && Onward(v, n, a', i) && Onward(a', i, b, j) && Retires(a', b, c)
    requires a'.p.live == a.p.live && (forall x: nat :: x in v.p.live ==> x < v.p.total)
    ensures ScannedBelow(v, cursor, c + 1, refreshed + [c], b)
  {
    forall x: nat | x in v.p.live && cursor < x < c + 1 && x in b.p.live
      ensures x in refreshed + [c] && !IsSettled(v, x)
    {
      OnwardKeeps(v, n, a', i, x);
      OnwardKeeps(a', i, b, j, x);
    }
    hide Onward;
  }

  lemma ScannedGone(v: View, cursor: int, c: nat, refreshed: seq<nat>, a: View)
    requires ScannedBelow(v, cursor, c, refreshed, a) && c !in a.p.live
    ensures ScannedBelow(v, cursor, c + 1, refreshed, a)
  {
  }

  lemma ScanEnds(v: View, cursor: int, limit: int, refreshed: seq<nat>, v': View)
    requires ScannedBelow(v, cursor, limit, refreshed, v') && v.p.total <= limit
    requires forall x: nat :: x in v.p.live ==> x < v.p.total
    ensures Scanned(v, cursor, refreshed, v')
  {
  }

  lemma WithinMore(s: seq<nat>, low: int, high: int, more: int)
    requires Within(s, low, high) && high <= more
    ensures Within(s, low, more)
  {
  }

  lemma LiveBelow(p: Pending, tree: Tree, w: World, d: Directory, e: Exempt)
    requires Good(p, tree, w, d, e)
    ensures forall x: nat :: x in p.live ==> x < p.total
  {
    forall x: nat | x in p.live ensures x < p.total {
      assert Tracked(p, d, e.failing, x);
    }
  }

  lemma ForgetOnward(v: View, n: nat, c: nat)
    requires v.p.depth > 0 ==> v.p.isOrdered
    ensures Onward(v, n, v.(p := v.p.(changed := v.p.changed - {c})), n)
  {
    OnwardSelf(v, n);
  }

  lemma ActivatedOnward(v: View, n: nat, tree': Tree)
    requires StaysActive(v.tree, tree') && (v.p.depth > 0 ==> v.p.isOrdered)
    ensures Onward(v, n, v.(tree := tree'), n)
  {
    OnwardSelf(v, n);
  }

  lemma ScannedSame(v: View, tree': Tree, cursor: int, refreshed: seq<nat>, v': View)
    requires Scanned(v.(tree := tree'), cursor, refreshed, v')
    ensures Scanned(v, cursor, refreshed, v')
  {
  }

  /** A collection changes notes and activity only. */
  lemma ReportedOnward(v: View, n: nat, v': View, visited: seq<nat>, seen: seq<nat>)
    requires Reported(v, visited, v', seen) && (v.p.depth > 0 ==> v.p.isOrdered)
    ensures Onward(v, n, v', n)
  {
    hide Grows, Distinct, Lookup;
  }

  lemma InspectedOnward(v: View, n: nat, c: nat, acknowledged: bool, publishing: bool)
    requires v.p.depth > 0 ==> v.p.isOrdered
    ensures Onward(v, n, v.(p := Inspected(v.p, c, acknowledged, publishing)), n)
  {
    OnwardSelf(v, n);
  }

  /** An active id is live. */
  lemma ActiveLive(p: Pending, tree: Tree, w: World, d: Directory, c: nat)
    requires Good(p, tree, w, d, NONE) && p.isOrdered && Activated(tree, c)
    ensures c in p.live && c < p.total
  {
    assert Tracked(p, d, {}, c) && Indexed(p, tree, {}, c);
  }

  /** A checkpoint inside another leaves what is active. */
  lemma OpenedOnward(v: View, a: View, n: nat, b: View, n': nat, v': View)
    requires a == v.(p := v.p.(depth := v.p.depth + 1)) && Onward(a, n, b, n')
    requires v'.w == b.w && v'.p.total == b.p.total && v'.p.depth == v.p.depth && v'.p.resolved == b.p.resolved
    requires v'.p.live == b.p.live && (v.p.depth > 0 ==> v'.p.isOrdered && v'.tree == b.tree)
    ensures Onward(v, n, v', n')
  {
    hide Grows, Lookup;
  }

  lemma CompletedServed(v: View, v0: View, n: nat, refreshed: seq<nat>, a: View, i: nat, v': View)
    requires v.p.live == v0.p.live && v.p.resolved == v0.p.resolved && v.p.total == v0.p.total && Later(v.w, v0.w)
    requires forall x: nat :: x in v.p.live ==> x < v.p.total
    requires UrgentDone(v0, refreshed, a)
    requires a.p.live == v'.p.live && !v.w.accounted
    ensures Completed(v, refreshed, v')
  {
    forall c: nat | c in v.p.live && Pressing(v, c) && c in v'.p.live ensures c in refreshed && !IsSettled(v, c) {
      LaterDrained(v.w, v0.w, c);
      LaterFlags(v.w, v0.w);
    }
    hide Later;
  }

  lemma CompletedScanned(v: View, v0: View, refreshed: seq<nat>, v': View)
    requires v.p.live == v0.p.live && v.p.resolved == v0.p.resolved && Later(v.w, v0.w)
    requires Scanned(v0, -1, refreshed, v')
    ensures Completed(v, refreshed, v')
  {
    forall c: nat | c in v.p.live && Pressing(v, c) && c in v'.p.live ensures c in refreshed && !IsSettled(v, c) {
      LaterDrained(v.w, v0.w, c);
      LaterFlags(v.w, v0.w);
    }
    hide Later;
  }

  lemma InspectedKeeps(p: Pending, c: nat, acknowledged: bool, publishing: bool)
    ensures var p' := Inspected(p, c, acknowledged, publishing); p'.total == p.total && p'.depth == p.depth
  {
  }

  lemma RetiresEarlier(v: View, n: nat, a: View, i: nat, b: View, c: nat)
    requires Onward(v, n, a, i) && Retires(a, b, c)
    ensures Retires(v, b, c)
  {
    hide IsSettled, Onward;
    if IsSettled(v, c) {
      SettledKept(v, n, a, i, c);
    }
  }

  lemma CompletedEmpty(v: View)
    requires v.p.live == {}
    ensures Completed(v, [], v)
  {
  }

  /**
   * At any point between two operations a failed live completion that has
   * drained is either active for inspection, or all eleven bits of its path are
   * set, so that the next collection finds it.
   */
  lemma DrainNoticed(p: Pending, tree: Tree, w: World, d: Directory, c: nat)
    requires Good(p, tree, w, d, NONE) && p.isOrdered && c in p.live && c in p.resolved && c < MAX_SAFE_INTEGER
    requires RequestOf(w, c).drained
    ensures Activated(tree, c)
            || (c in d.paths && |d.paths[c]| == 11 && forall m :: m in d.paths[c] ==> IsSet(w.words, m))
  {
    hide Proper, Linked, Branched, Entered, Lookup, IsSet;
    assert Tracked(p, d, {}, c) && Indexed(p, tree, {}, c);
    assert Covered(RequestOf(w, c), AttentionTo(Observing(p), c), c in {}, c in {});
    assert RequestOf(w, c).path == PathOf(d, c);
    var active := Lookup(tree, c).value;
    assert Lookup(tree, c) == Some(if active then true else false);
    if !Activated(tree, c) {
      PathLength(p, tree, w, d, c, NONE);
      assert Reached(w.words, RequestOf(w, c), None);
      forall m | m in d.paths[c] ensures IsSet(w.words, m) {
        assert IsSet(w.words, m) || None == Some(m);
      }
    }
  }
}
