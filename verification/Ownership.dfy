/**
 * Who owns whom: tensor identities and recorded history nodes, with reference
 * counts. An identity owns its gradient, the base it is a view of, and its
 * history; a history node owns its inputs and the leaf it ends at.
 */
module Ownership {
  import opened Options

  type Id = nat

  datatype Object =
    | Identity(references: nat, retired: bool, gradient: Option<Id>, base: Option<Id>, entry: Option<Id>,
               trueLeaf: bool)
    | HistoryNode(references: nat, inputs: seq<Option<Id>>, leafOwner: Option<Id>)

  function One(id: Option<Id>): multiset<Id> { if id.Some? then multiset{id.value} else multiset{} }

  function All(ids: seq<Option<Id>>): multiset<Id> {
    if ids == [] then multiset{} else All(ids[..|ids| - 1]) + One(ids[|ids| - 1])
  }

  predicate Alive(o: Object) { if o.Identity? then !o.retired else o.references > 0 }

  /** What o owns besides a gradient. */
  function Anchors(o: Object): multiset<Id> {
    if !Alive(o) then multiset{}
    else if o.Identity? then One(o.base) + if o.trueLeaf then multiset{} else One(o.entry)
    else All(o.inputs) + One(o.leafOwner)
  }

  /** The references that o owns. */
  function Held(o: Object): multiset<Id> {
    Anchors(o) + if o.Identity? && Alive(o) then One(o.gradient) else multiset{}
  }

  function Owned(objects: seq<Object>): multiset<Id> {
    if objects == [] then multiset{} else Owned(objects[..|objects| - 1]) + Held(objects[|objects| - 1])
  }

  lemma AddLast(a: multiset<Id>, b: multiset<Id>, last: multiset<Id>, less: multiset<Id>, more: multiset<Id>)
    requires b + less == a + more
    ensures (b + last) + less == (a + last) + more
  {
    assert (b + last) + less == (b + less) + last;
  }

  lemma {:induction false} OwnedUpdate(objects: seq<Object>, i: nat, o: Object)
    requires i < |objects|
    ensures Owned(objects[i := o]) + Held(objects[i]) == Owned(objects) + Held(o)
  {
    hide Held;
    var last := |objects| - 1;
    var r := objects[i := o];
    if i < last {
      OwnedUpdate(objects[..last], i, o);
      assert r[..last] == objects[..last][i := o];
      AddLast(Owned(objects[..last]), Owned(r[..last]), Held(objects[last]), Held(objects[i]), Held(o));
    } else {
      assert r[..last] == objects[..last];
    }
  }

  lemma OwnedAppend(objects: seq<Object>, o: Object)
    ensures Owned(objects + [o]) == Owned(objects) + Held(o)
  {
    assert (objects + [o])[..|objects|] == objects;
  }

  lemma {:induction false} HeldOwned(objects: seq<Object>, i: nat)
    requires i < |objects|
    ensures Held(objects[i]) <= Owned(objects)
  {
    hide Held;
    if i < |objects| - 1 {
      HeldOwned(objects[..|objects| - 1], i);
    }
  }

  lemma {:induction false} Owner(objects: seq<Object>, k: Id) returns (i: nat)
    requires k in Owned(objects)
    ensures i < |objects| && k in Held(objects[i])
  {
    hide Held;
    var last := |objects| - 1;
    if k in Held(objects[last]) {
      i := last;
    } else {
      i := Owner(objects[..last], k);
    }
  }

  /** The targets are there, and of the right kind. */
  predicate Linked(objects: seq<Object>, o: Object) {
    match o
    case Identity(_, _, gradient, base, entry, _) =>
      IsIdentity(objects, gradient) && IsIdentity(objects, base) && IsNode(objects, entry)
    case HistoryNode(_, inputs, leafOwner) =>
      IsIdentity(objects, leafOwner) && forall p :: 0 <= p < |inputs| ==> IsNode(objects, inputs[p])
  }

  predicate IsIdentity(objects: seq<Object>, id: Option<Id>) {
    id.Some? ==> id.value < |objects| && objects[id.value].Identity?
  }

  predicate IsNode(objects: seq<Object>, id: Option<Id>) {
    id.Some? ==> id.value < |objects| && objects[id.value].HistoryNode?
  }

  predicate CountedAt(objects: seq<Object>, external: multiset<Id>, i: nat)
    requires i < |objects|
  {
    && objects[i].references == Owned(objects)[i] + external[i]
    && (objects[i].Identity? && objects[i].retired ==> objects[i].references == 0)
    && Linked(objects, objects[i])
  }

  /** Every object counts exactly the references to it: owned ones, and the external ones. */
  predicate Counted(objects: seq<Object>, external: multiset<Id>) {
    && (forall i :: 0 <= i < |objects| ==> CountedAt(objects, external, i))
    && (forall i :: i in external ==> i < |objects|)
  }

  lemma {:induction false} InAll(ids: seq<Option<Id>>, k: Id)
    ensures k in All(ids) <==> exists p :: 0 <= p < |ids| && ids[p] == Some(k)
  {
    if ids != [] {
      var last := |ids| - 1;
      InAll(ids[..last], k);
      if k in All(ids[..last]) {
        var p :| 0 <= p < last && ids[..last][p] == Some(k);
        assert ids[p] == Some(k);
      }
      if exists p :: 0 <= p < |ids| && ids[p] == Some(k) {
        var p :| 0 <= p < |ids| && ids[p] == Some(k);
        assert p < last ==> ids[..last][p] == Some(k);
      }
    }
  }

  lemma HeldLinked(objects: seq<Object>, o: Object, k: Id)
    requires Linked(objects, o) && k in Held(o)
    ensures k < |objects|
  {
    if o.HistoryNode? {
      InAll(o.inputs, k);
    }
  }

  /** What is referred to is alive. */
  lemma TargetAlive(objects: seq<Object>, external: multiset<Id>, k: Id)
    requires Counted(objects, external) && (k in Owned(objects) || k in external)
    ensures k < |objects| && objects[k].references > 0 && Alive(objects[k])
  {
    if k in Owned(objects) {
      var i := Owner(objects, k);
      assert CountedAt(objects, external, i);
      HeldLinked(objects, objects[i], k);
    }
    assert CountedAt(objects, external, k);
    hide Owned, Held, Linked;
  }

  predicate SameKinds(before: seq<Object>, after: seq<Object>) {
    |before| <= |after| && forall i :: 0 <= i < |before| ==> (before[i].Identity? <==> after[i].Identity?)
  }

  lemma StillLinked(before: seq<Object>, after: seq<Object>, o: Object)
    requires SameKinds(before, after) && Linked(before, o)
    ensures Linked(after, o)
  {
  }

  /** Replacing one object by one that refers to less, with the count that makes up for it. */
  lemma CountedUpdate(objects: seq<Object>, external: multiset<Id>, external': multiset<Id>, i: nat, o: Object)
    requires Counted(objects, external) && i < |objects| && (o.Identity? <==> objects[i].Identity?)
    requires Linked(objects, o) && (o.Identity? && o.retired ==> o.references == 0)
    requires forall k :: k in external' ==> k < |objects|
    requires forall k: Id :: external'[k] + Held(o)[k] + (if k == i then objects[i].references else 0)
                          == external[k] + Held(objects[i])[k] + (if k == i then o.references else 0)
    ensures Counted(objects[i := o], external')
  {
    hide Owned, Held, Linked;
    var after := objects[i := o];
    OwnedUpdate(objects, i, o);
    assert SameKinds(objects, after);
    forall k | 0 <= k < |after| ensures CountedAt(after, external', k) {
      assert CountedAt(objects, external, k);
      BalancedAt(Owned(objects), Owned(after), external, external', Held(objects[i]), Held(o), k,
                 if k == i then objects[i].references else 0, if k == i then o.references else 0);
      StillLinked(objects, after, after[k]);
    }
    hide CountedAt;
  }

  lemma BalancedAt(a: multiset<Id>, b: multiset<Id>, external: multiset<Id>, external': multiset<Id>,
                   less: multiset<Id>, more: multiset<Id>, k: Id, count: nat, count': nat)
    requires b + less == a + more && external'[k] + more[k] + count == external[k] + less[k] + count'
    ensures b[k] + external'[k] + count == a[k] + external[k] + count'
  {
    assert (b + less)[k] == (a + more)[k];
  }

  /** One reference to an identity is given up. */
  function Dropped(o: Object): Object
    requires o.references > 0
  {
    match o
    case Identity(references, retired, gradient, base, entry, trueLeaf) =>
      Identity(references - 1, retired, gradient, base, entry, trueLeaf)
    case HistoryNode(references, inputs, leafOwner) =>
      HistoryNode(references - 1, if references == 1 then [] else inputs, leafOwner)
  }

  /** Dropping a reference; a history node that nobody refers to gives up its own at once. */
  lemma Drop(objects: seq<Object>, external: multiset<Id>, i: Id)
    requires Counted(objects, external) && i in external
    ensures i < |objects| && objects[i].references > 0
    ensures Counted(objects[i := Dropped(objects[i])],
                    external - multiset{i} + (if objects[i].HistoryNode? && objects[i].references == 1
                                              then Held(objects[i]) else multiset{}))
  {
    assert CountedAt(objects, external, i);
    var o := objects[i];
    var freed := if o.HistoryNode? && o.references == 1 then Held(o) else multiset{};
    forall k | k in external - multiset{i} + freed ensures k < |objects| {
      if k in freed {
        HeldLinked(objects, o, k);
      }
    }
    DropHeld(objects, o);
    hide Held, Linked, Owned;
    CountedUpdate(objects, external, external - multiset{i} + freed, i, Dropped(o));
  }

  lemma DropHeld(objects: seq<Object>, o: Object)
    requires o.references > 0 && Linked(objects, o) && !(o.Identity? && o.retired)
    ensures Held(Dropped(o)) == if o.HistoryNode? && o.references == 1 then multiset{} else Held(o)
    ensures Linked(objects, Dropped(o)) && (o.Identity? <==> Dropped(o).Identity?)
    ensures !(Dropped(o).Identity? && Dropped(o).retired)
    ensures Dropped(o).references == o.references - 1
  {
  }

  /** Retiring an identity that nobody refers to gives up what it owns. */
  lemma Retire(objects: seq<Object>, external: multiset<Id>, i: Id)
    requires Counted(objects, external) && i < |objects| && objects[i].Identity? && !objects[i].retired
    requires objects[i].references == 0
    ensures Counted(objects[i := objects[i].(retired := true, gradient := None, entry := None)],
                    external + Held(objects[i]))
  {
    assert CountedAt(objects, external, i);
    var o := objects[i].(retired := true, gradient := None, entry := None);
    forall k | k in external + Held(objects[i]) ensures k < |objects| {
      if k in Held(objects[i]) {
        HeldLinked(objects, objects[i], k);
      }
    }
    CountedUpdate(objects, external, external + Held(objects[i]), i, o);
  }

  /** Cutting a gradient association leaves its reference to be given up. */
  lemma Cut(objects: seq<Object>, external: multiset<Id>, i: Id)
    requires Counted(objects, external) && i < |objects| && objects[i].Identity? && !objects[i].retired
    ensures Counted(objects[i := objects[i].(gradient := None)], external + One(objects[i].gradient))
  {
    assert CountedAt(objects, external, i);
    var o := objects[i].(gradient := None);
    CountedUpdate(objects, external, external + One(objects[i].gradient), i, o);
  }

  lemma OwnedInside(objects: seq<Object>, external: multiset<Id>)
    requires Counted(objects, external)
    ensures forall k :: k in Owned(objects) ==> k < |objects|
  {
    forall k | k in Owned(objects) ensures k < |objects| {
      var i := Owner(objects, k);
      assert CountedAt(objects, external, i);
      HeldLinked(objects, objects[i], k);
    }
    hide Owned, Held, Linked;
  }

  /** A new object takes over the references that it owns. */
  lemma CountedAppend(objects: seq<Object>, external: multiset<Id>, external': multiset<Id>, o: Object)
    requires Counted(objects, external) && Linked(objects, o) && !(o.Identity? && o.retired)
    requires external' == external - Held(o) + multiset{}[|objects| := o.references] && Held(o) <= external
    ensures Counted(objects + [o], external')
  {
    hide Owned, Held, Linked;
    var after := objects + [o];
    OwnedAppend(objects, o);
    OwnedInside(objects, external);
    HeldInside(objects, o);
    forall k | 0 <= k < |after| ensures CountedAt(after, external', k) {
      if k < |objects| {
        assert CountedAt(objects, external, k);
        StillLinked(objects, after, objects[k]);
      } else {
        assert k !in Owned(objects) && k !in Held(o) && k !in external;
        StillLinked(objects, after, o);
      }
    }
  }

  lemma HeldInside(objects: seq<Object>, o: Object)
    requires Linked(objects, o)
    ensures forall k :: k in Held(o) ==> k < |objects|
  {
    forall k | k in Held(o) ensures k < |objects| {
      HeldLinked(objects, o, k);
    }
    hide Linked, Held;
  }

  predicate SameEdges(a: Object, b: Object) {
    && (a.Identity? <==> b.Identity?)
    && (a.Identity? ==> a.gradient == b.gradient && a.base == b.base && a.entry == b.entry && a.trueLeaf == b.trueLeaf)
    && (a.HistoryNode? ==> a.inputs == b.inputs && a.leafOwner == b.leafOwner)
  }

  /** What even an object that dies keeps. */
  predicate Wanes(before: Object, after: Object) {
    if before.Identity? then after.Identity? && after.base == before.base && after.trueLeaf == before.trueLeaf
    else
      && after.HistoryNode? && after.leafOwner == before.leafOwner
      && (after.inputs == before.inputs || after.inputs == [])
  }

  predicate FadesAt(before: seq<Object>, after: seq<Object>, i: nat)
    requires i < |before| == |after|
  {
    && Wanes(before[i], after[i])
    && (Alive(after[i]) ==> Alive(before[i]) && SameEdges(before[i], after[i]))
  }

  /** Objects die and nothing else happens: whatever is still alive owns what it owned. */
  predicate Fades(before: seq<Object>, after: seq<Object>) {
    |before| == |after| && forall i :: 0 <= i < |before| ==> FadesAt(before, after, i)
  }

  lemma FadesMore(a: seq<Object>, b: seq<Object>, c: seq<Object>)
    requires Fades(a, b) && Fades(b, c)
    ensures Fades(a, c)
  {
    forall i | 0 <= i < |a| ensures FadesAt(a, c, i) {
      assert FadesAt(a, b, i) && FadesAt(b, c, i);
    }
    hide Alive;
  }

  /** The objects that are alive. */
  function Living(objects: seq<Object>): nat {
    if objects == [] then 0 else Living(objects[..|objects| - 1]) + if Alive(objects[|objects| - 1]) then 1 else 0
  }

  lemma {:induction false} LivingFewer(before: seq<Object>, after: seq<Object>)
    requires Fades(before, after)
    ensures Living(after) <= Living(before)
    ensures (exists i :: 0 <= i < |before| && Alive(before[i]) && !Alive(after[i])) ==> Living(after) < Living(before)
  {
    hide Alive, SameEdges;
    if before != [] {
      var last := |before| - 1;
      forall i | 0 <= i < last ensures FadesAt(before[..last], after[..last], i) {
        assert FadesAt(before, after, i);
      }
      LivingFewer(before[..last], after[..last]);
      assert FadesAt(before, after, last);
      if exists i :: 0 <= i < |before| && Alive(before[i]) && !Alive(after[i]) {
        var i :| 0 <= i < |before| && Alive(before[i]) && !Alive(after[i]);
        assert i < last ==> Alive(before[..last][i]) && !Alive(after[..last][i]);
      }
    }
  }

  /** The objects that keep a gradient. */
  function Associations(objects: seq<Object>): nat {
    if objects == [] then 0
    else Associations(objects[..|objects| - 1]) + HasGradient(objects[|objects| - 1])
  }

  function HasGradient(o: Object): nat { if o.Identity? && Alive(o) && o.gradient.Some? then 1 else 0 }

  lemma {:induction false} AssociationsUpdate(objects: seq<Object>, i: nat, o: Object)
    requires i < |objects|
    ensures Associations(objects[i := o]) + HasGradient(objects[i]) == Associations(objects) + HasGradient(o)
  {
    hide HasGradient;
    var last := |objects| - 1;
    var r := objects[i := o];
    if i < last {
      AssociationsUpdate(objects[..last], i, o);
      assert r[..last] == objects[..last][i := o];
    } else {
      assert r[..last] == objects[..last];
    }
  }

  lemma {:induction false} NoAssociations(objects: seq<Object>, i: nat)
    requires Associations(objects) == 0 && i < |objects|
    ensures HasGradient(objects[i]) == 0
  {
    hide HasGradient;
    if i < |objects| - 1 {
      NoAssociations(objects[..|objects| - 1], i);
    }
  }

  /** A chain of owned references. */
  predicate Chain(objects: seq<Object>, path: seq<Id>) {
    && path != [] && (forall s :: 0 <= s < |path| ==> path[s] < |objects|)
    && forall s :: 0 < s < |path| ==> path[s] in Held(objects[path[s - 1]])
  }

  /** A chain of owned references leads from a root to k. */
  ghost predicate Reachable(objects: seq<Object>, roots: multiset<Id>, k: Id) {
    exists path: seq<Id> :: Chain(objects, path) && path[0] in roots && path[|path| - 1] == k
  }

  lemma ReachableRoot(objects: seq<Object>, roots: multiset<Id>, k: Id)
    requires k in roots && k < |objects|
    ensures Reachable(objects, roots, k)
  {
    assert Chain(objects, [k]);
  }

  lemma ReachableNext(objects: seq<Object>, roots: multiset<Id>, m: Id, k: Id)
    requires Reachable(objects, roots, m) && m < |objects| && k in Held(objects[m]) && k < |objects|
    ensures Reachable(objects, roots, k)
  {
    hide Held;
    var path :| Chain(objects, path) && path[0] in roots && path[|path| - 1] == m;
    var longer := path + [k];
    forall s | 0 < s < |longer| ensures longer[s] in Held(objects[longer[s - 1]]) {
      if s < |path| {
        assert path[s] in Held(objects[path[s - 1]]);
      }
    }
    assert Chain(objects, longer);
  }

  /** A set that contains the roots and is closed contains everything reachable. */
  lemma {:induction false} ChainInside(objects: seq<Object>, marked: set<Id>, path: seq<Id>)
    requires Chain(objects, path) && path[0] in marked
    requires forall m: Id, k: Id :: m in marked && m < |objects| && k in Held(objects[m]) ==> k in marked
    ensures path[|path| - 1] in marked
    decreases |path|
  {
    hide Held;
    if |path| > 1 {
      var less := path[..|path| - 1];
      assert Chain(objects, less);
      ChainInside(objects, marked, less);
    }
  }

  lemma SameHeld(a: Object, b: Object)
    requires Alive(a) && Alive(b) && SameEdges(a, b)
    ensures Held(a) == Held(b) && Anchors(a) == Anchors(b)
  {
  }

  /** Whatever was reachable is alive as long as the roots are counted. */
  lemma {:induction false} ChainAlive(before: seq<Object>, after: seq<Object>, external: multiset<Id>, path: seq<Id>)
    requires Fades(before, after) && Counted(after, external) && Chain(before, path) && path[0] in external
    ensures Alive(after[path[|path| - 1]]) && after[path[|path| - 1]].references > 0
    decreases |path|
  {
    hide Held, Alive, Counted, SameEdges, Owned;
    if |path| == 1 {
      TargetAlive(after, external, path[0]);
    } else {
      var less := path[..|path| - 1];
      assert Chain(before, less);
      ChainAlive(before, after, external, less);
      var m := less[|less| - 1];
      assert FadesAt(before, after, m);
      SameHeld(before[m], after[m]);
      HeldOwned(after, m);
      TargetAlive(after, external, path[|path| - 1]);
    }
  }

  /**
   * A view comes after its base and a node after its inputs. A node may end at a
   * leaf, and a leaf is never a view. Entries may lead anywhere.
   */
  predicate LayeredAt(objects: seq<Object>, k: nat)
    requires k < |objects|
  {
    match objects[k]
    case Identity(_, _, _, base, _, trueLeaf) => base.Some? ==> !trueLeaf && base.value < k
    case HistoryNode(_, inputs, leafOwner) =>
      && (leafOwner.Some? ==>
            leafOwner.value < |objects| && objects[leafOwner.value].Identity? && objects[leafOwner.value].trueLeaf)
      && forall p :: 0 <= p < |inputs| && inputs[p].Some? ==> inputs[p].value < k
  }

  predicate Layered(objects: seq<Object>) { forall k :: 0 <= k < |objects| ==> LayeredAt(objects, k) }

  lemma StillLayered(before: seq<Object>, after: seq<Object>)
    requires |before| == |after| && forall k :: 0 <= k < |before| ==> Wanes(before[k], after[k])
    requires Layered(before)
    ensures Layered(after)
  {
    forall k | 0 <= k < |after| ensures LayeredAt(after, k) {
      assert LayeredAt(before, k);
    }
  }

  lemma FadesLayered(before: seq<Object>, after: seq<Object>)
    requires Fades(before, after) && Layered(before)
    ensures Layered(after)
  {
    hide Alive, SameEdges;
    forall k | 0 <= k < |before| ensures Wanes(before[k], after[k]) {
      assert FadesAt(before, after, k);
    }
    StillLayered(before, after);
    hide Wanes, Layered;
  }

  lemma LayeredAppend(objects: seq<Object>, o: Object)
    requires Layered(objects)
    requires o.Identity? && o.base.Some? ==> !o.trueLeaf && o.base.value < |objects|
    requires o.HistoryNode? && o.leafOwner.Some? ==>
               o.leafOwner.value < |objects| && objects[o.leafOwner.value].Identity?
                 && objects[o.leafOwner.value].trueLeaf
    requires o.HistoryNode? ==> forall p :: 0 <= p < |o.inputs| && o.inputs[p].Some? ==> o.inputs[p].value < |objects|
    ensures Layered(objects + [o])
  {
    forall k | 0 <= k <= |objects| ensures LayeredAt(objects + [o], k) {
      assert k < |objects| ==> LayeredAt(objects, k);
    }
  }

  /** Leaves, then history nodes as they were recorded, then the other identities as they were made. */
  function Rank(objects: seq<Object>, k: nat): (r: nat)
    requires k < |objects|
    ensures r <= 2 * |objects|
  {
    if objects[k].HistoryNode? then 1 + k else if objects[k].trueLeaf then 0 else 1 + |objects| + k
  }

  /** Owned references other than gradients go down in rank, so that they form no cycle. */
  lemma AnchorsDescend(objects: seq<Object>, m: Id, k: Id)
    requires Layered(objects) && m < |objects| && Linked(objects, objects[m]) && k in Anchors(objects[m])
    ensures k < |objects| && Rank(objects, k) < Rank(objects, m)
  {
    assert LayeredAt(objects, m);
    var o := objects[m];
    if o.HistoryNode? {
      InAll(o.inputs, k);
      if k in All(o.inputs) {
        var p :| 0 <= p < |o.inputs| && o.inputs[p] == Some(k);
        assert IsNode(objects, o.inputs[p]);
      }
    }
    hide All, Layered;
  }

  /** Following the references from the roots: what is marked has its own references marked or pending. */
  ghost predicate Marking(objects: seq<Object>, roots: multiset<Id>, marked: set<Id>, pending: seq<Id>) {
    && (forall k :: k in pending ==> k < |objects| && Reachable(objects, roots, k))
    && (forall k :: k in marked ==> k < |objects| && Reachable(objects, roots, k))
    && (forall m: Id, k: Id :: m in marked && m < |objects| && k in Held(objects[m]) ==> k in marked || k in pending)
    && (forall k :: k in roots ==> k in marked || k in pending)
  }

  lemma MarkSkip(objects: seq<Object>, roots: multiset<Id>, marked: set<Id>, pending: seq<Id>, owner: Id)
    requires Marking(objects, roots, marked, pending + [owner]) && owner in marked
    ensures Marking(objects, roots, marked, pending)
  {
    hide Held, Reachable;
    assert forall k :: k in pending + [owner] <==> k in pending || k == owner;
  }

  lemma MarkNext(objects: seq<Object>, external: multiset<Id>, roots: multiset<Id>, marked: set<Id>, pending: seq<Id>,
                 owner: Id, more: seq<Id>)
    requires Marking(objects, roots, marked, pending + [owner]) && Counted(objects, external) && owner < |objects|
    requires forall k: Id :: k in more <==> k in Held(objects[owner])
    ensures Marking(objects, roots, marked + {owner}, pending + more)
  {
    hide Held, Reachable, Counted;
    assert owner in pending + [owner];
    MoreReachable(objects, external, roots, owner, more);
    assert forall k :: k in pending + [owner] <==> k in pending || k == owner;
    assert forall k :: k in pending + more <==> k in pending || k in more;
  }

  lemma MoreReachable(objects: seq<Object>, external: multiset<Id>, roots: multiset<Id>, owner: Id, more: seq<Id>)
    requires Counted(objects, external) && owner < |objects| && Reachable(objects, roots, owner)
    requires forall k: Id :: k in more <==> k in Held(objects[owner])
    ensures forall k :: k in more ==> k < |objects| && Reachable(objects, roots, k)
  {
    assert CountedAt(objects, external, owner);
    forall k | k in more ensures k < |objects| && Reachable(objects, roots, k) {
      HeldLinked(objects, objects[owner], k);
      ReachableNext(objects, roots, owner, k);
    }
    hide Held, Reachable, Counted;
  }

  /** Once nothing is pending, what is marked is what is reachable. */
  lemma Marked(objects: seq<Object>, roots: multiset<Id>, marked: set<Id>, k: Id)
    requires Marking(objects, roots, marked, [])
    ensures k in marked <==> k < |objects| && Reachable(objects, roots, k)
  {
    if k < |objects| && Reachable(objects, roots, k) {
      var path :| Chain(objects, path) && path[0] in roots && path[|path| - 1] == k;
      ChainInside(objects, marked, path);
    }
    hide Held, Chain;
  }

  lemma ReachableAlive(before: seq<Object>, after: seq<Object>, external: multiset<Id>, roots: multiset<Id>, k: Id)
    requires Fades(before, after) && Counted(after, external) && roots <= external
    requires k < |before| && Reachable(before, roots, k)
    ensures Alive(after[k]) && SameEdges(before[k], after[k]) && after[k].references > 0
  {
    var path :| Chain(before, path) && path[0] in roots && path[|path| - 1] == k;
    ChainAlive(before, after, external, path);
    assert FadesAt(before, after, k);
    hide Counted, Chain, SameEdges;
  }

  /** The associations of unmarked identities are cut, up to n. */
  predicate CutBelow(before: seq<Object>, after: seq<Object>, marked: set<Id>, n: nat) {
    && |before| == |after|
    && forall k :: 0 <= k < |before| ==>
         after[k] == if k < n && before[k].Identity? && !before[k].retired && k !in marked
                     then before[k].(gradient := None) else before[k]
  }

  /** A chain of marked objects is not affected by the cutting. */
  lemma {:induction false} ChainUncut(before: seq<Object>, cut: seq<Object>, roots: multiset<Id>, marked: set<Id>,
                                      path: seq<Id>)
    requires CutBelow(before, cut, marked, |before|) && Chain(before, path) && path[0] in roots
    requires forall k: Id :: k < |before| && Reachable(before, roots, k) ==> k in marked
    ensures Chain(cut, path)
    decreases |path|
  {
    hide Held;
    if |path| > 1 {
      var less := path[..|path| - 1];
      assert Chain(before, less);
      ChainUncut(before, cut, roots, marked, less);
      assert Reachable(before, roots, less[|less| - 1]);
      forall s | 0 < s < |path| ensures path[s] in Held(cut[path[s - 1]]) {
        if s < |path| - 1 {
          assert less[s] in Held(cut[less[s - 1]]);
        }
      }
    }
  }

  /**
   * What counting leaves: the reachable whole, and others only where owned references other
   * than gradients hold them.
   */
  ghost predicate Swept(before: seq<Object>, after: seq<Object>, roots: multiset<Id>) {
    && |before| == |after|
    && (forall k: Id :: k < |before| && Reachable(before, roots, k) ==>
          Alive(before[k]) && Alive(after[k]) && SameEdges(before[k], after[k]))
    && (forall k: Id :: k < |before| && Alive(after[k]) && !Reachable(before, roots, k) ==>
          Anchored(before, after, roots, k))
  }

  ghost predicate Anchored(before: seq<Object>, after: seq<Object>, roots: multiset<Id>, k: Id)
    requires |before| == |after|
  {
    exists p: Id :: p < |before| && Alive(after[p]) && !Reachable(before, roots, p) && k in Anchors(before[p])
  }

  /** After cutting and releasing, exactly what the counts still justify is left. */
  lemma Collects(before: seq<Object>, cut: seq<Object>, after: seq<Object>, roots: multiset<Id>, marked: set<Id>)
    requires Counted(before, roots) && CutBelow(before, cut, marked, |before|)
    requires forall k: Id :: k in marked <==> k < |before| && Reachable(before, roots, k)
    requires Fades(cut, after) && Counted(after, roots)
    requires forall k :: 0 <= k < |after| && after[k].Identity? && !after[k].retired ==> after[k].references > 0
    ensures Swept(before, after, roots)
  {
    hide Counted, Fades, Reachable, Alive, Held, Anchors, SameEdges, CutBelow;
    CutSize(before, cut, marked, |before|);
    FadesSize(cut, after);
    forall k: Id | k < |before| && Reachable(before, roots, k)
      ensures Alive(before[k]) && Alive(after[k]) && SameEdges(before[k], after[k])
    {
      Keeps(before, cut, after, roots, marked, k);
    }
    forall k: Id | k < |before| && Alive(after[k]) && !Reachable(before, roots, k)
      ensures Anchored(before, after, roots, k)
    {
      Leaves(before, cut, after, roots, marked, k);
    }
  }

  lemma CutSize(before: seq<Object>, after: seq<Object>, marked: set<Id>, n: nat)
    requires CutBelow(before, after, marked, n)
    ensures |before| == |after|
  {
  }

  lemma FadesSize(before: seq<Object>, after: seq<Object>)
    requires Fades(before, after)
    ensures |before| == |after|
  {
  }

  lemma FadesSelf(objects: seq<Object>)
    ensures Fades(objects, objects)
  {
  }

  lemma Keeps(before: seq<Object>, cut: seq<Object>, after: seq<Object>, roots: multiset<Id>, marked: set<Id>, k: Id)
    requires Counted(before, roots) && CutBelow(before, cut, marked, |before|)
    requires forall m: Id :: m in marked <==> m < |before| && Reachable(before, roots, m)
    requires Fades(cut, after) && Counted(after, roots) && k < |before| && Reachable(before, roots, k)
    ensures |before| == |after| && Alive(before[k]) && Alive(after[k]) && SameEdges(before[k], after[k])
  {
    hide Counted, Fades, Alive, Held, SameEdges;
    FadesSelf(before);
    ReachableAlive(before, before, roots, roots, k);
    var path :| Chain(before, path) && path[0] in roots && path[|path| - 1] == k;
    ChainUncut(before, cut, roots, marked, path);
    assert Reachable(cut, roots, k);
    ReachableAlive(cut, after, roots, roots, k);
    FadesSize(cut, after);
    assert cut[k] == before[k];
  }

  lemma Leaves(before: seq<Object>, cut: seq<Object>, after: seq<Object>, roots: multiset<Id>, marked: set<Id>, k: Id)
    requires Counted(before, roots) && CutBelow(before, cut, marked, |before|)
    requires forall m: Id :: m in marked <==> m < |before| && Reachable(before, roots, m)
    requires Fades(cut, after) && Counted(after, roots)
    requires forall m :: 0 <= m < |after| && after[m].Identity? && !after[m].retired ==> after[m].references > 0
    requires |before| == |cut| == |after| && k < |before| && Alive(after[k]) && !Reachable(before, roots, k)
    ensures Anchored(before, after, roots, k)
  {
    assert CountedAt(after, roots, k);
    if k in roots {
      ReachableRoot(before, roots, k);
    }
    var p := Owner(after, k);
    var aliveOwner := HoldsAlive(after[p], k);
    assert FadesAt(cut, after, p);
    SameHeld(cut[p], after[p]);
    if Reachable(before, roots, p) {
      assert cut[p] == before[p];
      ReachableNext(before, roots, p, k);
    }
    assert k in Anchors(before[p]) by {
      CutAnchors(before[p], cut[p], k);
    }
    hide Counted, Owned, Reachable, Fades, Held, Anchors;
  }

  lemma HoldsAlive(o: Object, k: Id) returns (alive: bool)
    requires k in Held(o)
    ensures alive && Alive(o)
  {
    alive := true;
  }

  lemma CutAnchors(before: Object, cut: Object, k: Id)
    requires before.Identity? && !before.retired ==> cut == before.(gradient := None)
    requires !(before.Identity? && !before.retired) ==> cut == before
    requires k in Held(cut)
    ensures k in Anchors(before)
  {
  }

  /**
   * What a pass achieves: exactly what exposed handles, optimizers and captures reach is
   * alive, and owns what it did.
   */
  ghost predicate Collected(before: seq<Object>, after: seq<Object>, roots: multiset<Id>) {
    && |before| == |after|
    && forall k: Id :: k < |before| ==>
         (Alive(after[k]) <==> Reachable(before, roots, k)) && (Alive(after[k]) ==> SameEdges(before[k], after[k]))
  }

  lemma ExactlyReachable(before: seq<Object>, after: seq<Object>, roots: multiset<Id>)
    requires Swept(before, after, roots) && Counted(before, roots) && Layered(before)
    ensures Collected(before, after, roots)
  {
    hide Reachable, Alive, Anchors, SameEdges, Layered, Counted;
    forall k: Id | k < |before|
      ensures (Alive(after[k]) <==> Reachable(before, roots, k)) && (Alive(after[k]) ==> SameEdges(before[k], after[k]))
    {
      NoneLeft(before, after, roots, k);
    }
  }

  lemma {:induction false} NoneLeft(before: seq<Object>, after: seq<Object>, roots: multiset<Id>, k: Id)
    requires Swept(before, after, roots) && Counted(before, roots) && Layered(before) && k < |before|
    ensures !(Alive(after[k]) && !Reachable(before, roots, k))
    decreases 2 * |before| - Rank(before, k)
  {
    hide Reachable, Alive, Anchors, SameEdges, Layered;
    if Alive(after[k]) && !Reachable(before, roots, k) {
      assert Anchored(before, after, roots, k);
      var p: Id :| p < |before| && Alive(after[p]) && !Reachable(before, roots, p) && k in Anchors(before[p]);
      assert CountedAt(before, roots, p);
      AnchorsDescend(before, p, k);
      NoneLeft(before, after, roots, p);
    }
    hide Counted, Rank;
  }
}
