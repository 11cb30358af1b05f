/**
 * The index as the consumer keeps it: nodes that are linked, rotated and
 * unlinked in place, each under its id. Every operation makes of the nodes what
 * AdmissionIndex makes of the tree they form.
 */
module LinkedAdmissions {
  import opened Options
  import A = AdmissionIndex

  type Tree = A.Tree

  type Link = Option<nat>

  datatype Admission = Admission(active: bool, left: Link, right: Link, height: nat, count: nat)

  type Nodes = map<nat, Admission>

  function Ids(t: Tree): set<nat> { if t.Empty? then {} else Ids(t.left) + {t.id} + Ids(t.right) }

  /** No id occurs twice. */
  predicate Apart(t: Tree) {
    t.Node? ==>
      && t.id !in Ids(t.left) && t.id !in Ids(t.right) && Ids(t.left) !! Ids(t.right)
      && Apart(t.left) && Apart(t.right)
  }

  /** The node stands for the root of the tree, and its links for the subtrees, whatever its height and count. */
  predicate Hangs(nodes: Nodes, id: nat, t: Tree)
    decreases t, 0
  {
    && t.Node? && t.id == id && id in nodes && nodes[id].active == t.active
    && Linked(nodes, nodes[id].left, t.left) && Linked(nodes, nodes[id].right, t.right)
  }

  /** The nodes reached over the link form the tree. */
  predicate Linked(nodes: Nodes, link: Link, t: Tree)
    decreases t, 1
  {
    if t.Empty? then link.None?
    else
      && link == Some(t.id) && Hangs(nodes, t.id, t)
      && nodes[t.id].height == t.height && nodes[t.id].count == t.count
  }

  predicate Agree(before: Nodes, after: Nodes, ids: set<nat>) {
    forall k :: k in ids && k in before ==> k in after && after[k] == before[k]
  }

  /** Nodes that nobody writes keep forming their tree. */
  lemma {:induction false} Unmoved(before: Nodes, after: Nodes, link: Link, t: Tree)
    requires Linked(before, link, t) && Agree(before, after, Ids(t))
    ensures Linked(after, link, t)
    decreases t
  {
    if t.Node? {
      Unmoved(before, after, before[t.id].left, t.left);
      Unmoved(before, after, before[t.id].right, t.right);
    }
  }

  /** Nothing is written outside of some ids. */
  predicate Within(before: Nodes, after: Nodes, ids: set<nat>) {
    before.Keys == after.Keys && forall k :: k in before && k !in ids ==> after[k] == before[k]
  }

  /** Nor does any activity change. */
  predicate Only(before: Nodes, after: Nodes, ids: set<nat>) {
    Within(before, after, ids) && forall k :: k in before ==> after[k].active == before[k].active
  }

  lemma OnlyMore(a: Nodes, b: Nodes, c: Nodes, ids: set<nat>, more: set<nat>, all: set<nat>)
    requires Only(a, b, ids) && Only(b, c, more) && ids <= all && more <= all
    ensures Only(a, c, all)
  {
  }

  lemma OnlySame(nodes: Nodes, ids: set<nat>)
    ensures Only(nodes, nodes, ids)
  {
  }

  function HeightOf(nodes: Nodes, link: Link): nat {
    if link.Some? && link.value in nodes then nodes[link.value].height else 0
  }

  function CountOf(nodes: Nodes, link: Link): nat {
    if link.Some? && link.value in nodes then nodes[link.value].count else 0
  }

  lemma LinkedSizes(nodes: Nodes, link: Link, t: Tree)
    requires Linked(nodes, link, t)
    ensures HeightOf(nodes, link) == A.Height(t) && CountOf(nodes, link) == A.Count(t)
    ensures link.None? <==> t.Empty?
    ensures link.Some? ==> link.value == t.id && link.value in nodes
  {
  }

  /** The node with its height and count brought up to date. */
  function Refreshed(nodes: Nodes, id: nat): Nodes
    requires id in nodes
  {
    var node := nodes[id];
    var l, r := HeightOf(nodes, node.left), HeightOf(nodes, node.right);
    nodes[id := node.(height := 1 + (if l >= r then l else r),
                      count := (if node.active then 1 else 0) + CountOf(nodes, node.left) + CountOf(nodes, node.right))]
  }

  lemma RefreshedLinked(nodes: Nodes, id: nat, t: Tree)
    requires Hangs(nodes, id, t) && Apart(t)
    ensures id in nodes && Linked(Refreshed(nodes, id), Some(id), A.Update(t))
    ensures Only(nodes, Refreshed(nodes, id), {id})
  {
    LinkedSizes(nodes, nodes[id].left, t.left);
    LinkedSizes(nodes, nodes[id].right, t.right);
    Unmoved(nodes, Refreshed(nodes, id), nodes[id].left, t.left);
    Unmoved(nodes, Refreshed(nodes, id), nodes[id].right, t.right);
  }

  lemma Child(nodes: Nodes, link: Link, t: Tree)
    requires Linked(nodes, link, t) && t.Node?
    ensures link == Some(t.id) && Hangs(nodes, t.id, t) && t.id in nodes && nodes[t.id].active == t.active
    ensures Linked(nodes, nodes[t.id].left, t.left) && Linked(nodes, nodes[t.id].right, t.right)
  {
  }

  /** What a node and its children are. */
  lemma Whole(nodes: Nodes, id: nat, t: Tree)
    requires Hangs(nodes, id, t)
    ensures t.Node? && t.id == id && id in nodes && nodes[id].active == t.active
    ensures Linked(nodes, nodes[id].left, t.left) && Linked(nodes, nodes[id].right, t.right)
    ensures t.left.Node? ==>
              && nodes[id].left == Some(t.left.id) && t.left.id in nodes && Hangs(nodes, t.left.id, t.left)
              && nodes[t.left.id].active == t.left.active
              && Linked(nodes, nodes[t.left.id].left, t.left.left)
                && Linked(nodes, nodes[t.left.id].right, t.left.right)
    ensures t.right.Node? ==>
              && nodes[id].right == Some(t.right.id) && t.right.id in nodes && Hangs(nodes, t.right.id, t.right)
              && nodes[t.right.id].active == t.right.active
              && Linked(nodes, nodes[t.right.id].left, t.right.left)
                && Linked(nodes, nodes[t.right.id].right, t.right.right)
    ensures t.left.Empty? ==> nodes[id].left.None?
    ensures t.right.Empty? ==> nodes[id].right.None?
  {
    if t.left.Node? {
      Child(nodes, nodes[id].left, t.left);
    }
    if t.right.Node? {
      Child(nodes, nodes[id].right, t.right);
    }
  }

  /** The left child goes up. */
  lemma RotatedRight(nodes: Nodes, id: nat, t: Tree)
    requires Hangs(nodes, id, t) && Apart(t) && t.left.Node?
    ensures id in nodes && nodes[id].left == Some(t.left.id) && t.left.id in nodes && t.left.id != id
    ensures var first := nodes[id := nodes[id].(left := nodes[t.left.id].right)];
            && Hangs(first, id, t.(left := t.left.right)) && Apart(t.(left := t.left.right))
            && Agree(nodes, first, Ids(t.left))
  {
    Whole(nodes, id, t);
    var left := t.left.id;
    var first := nodes[id := nodes[id].(left := nodes[left].right)];
    Unmoved(nodes, first, nodes[left].right, t.left.right);
    Unmoved(nodes, first, nodes[id].right, t.right);
  }

  lemma RaisedLeft(nodes: Nodes, lowered: Nodes, id: nat, t: Tree, down: Tree)
    requires Hangs(nodes, id, t) && Apart(t) && t.left.Node? && Ids(down) == Ids(t.left.right) + {id} + Ids(t.right)
    requires Only(nodes, lowered, {id}) && Linked(lowered, Some(id), down) && Apart(down)
    ensures t.left.id in lowered
    ensures var up := t.left.(right := down);
            var after := lowered[t.left.id := lowered[t.left.id].(right := Some(id))];
            Hangs(after, t.left.id, up) && Apart(up) && Only(nodes, after, {id, t.left.id}) && Ids(up) == Ids(t)
  {
    Whole(nodes, id, t);
    var left := t.left.id;
    var after := lowered[left := lowered[left].(right := Some(id))];
    Unmoved(nodes, lowered, nodes[left].left, t.left.left);
    Unmoved(lowered, after, nodes[left].left, t.left.left);
    Unmoved(lowered, after, Some(id), down);
  }

  lemma DownRight(nodes: Nodes, id: nat, t: Tree)
    requires Hangs(nodes, id, t) && Apart(t) && t.left.Node?
    ensures id in nodes && t.left.id in nodes
    ensures Only(nodes, nodes[id := nodes[id].(left := nodes[t.left.id].right)], {id})
    ensures Ids(t.(left := t.left.right)) == Ids(t.left.right) + {id} + Ids(t.right)
  {
    Whole(nodes, id, t);
  }

  lemma InsideRight(t: Tree)
    requires t.Node? && t.left.Node?
    ensures {t.id, t.left.id} <= Ids(t) && {t.left.id} <= Ids(t)
  {
  }

  /** The right child goes up. */
  lemma RotatedLeft(nodes: Nodes, id: nat, t: Tree)
    requires Hangs(nodes, id, t) && Apart(t) && t.right.Node?
    ensures id in nodes && nodes[id].right == Some(t.right.id) && t.right.id in nodes && t.right.id != id
    ensures var first := nodes[id := nodes[id].(right := nodes[t.right.id].left)];
            && Hangs(first, id, t.(right := t.right.left)) && Apart(t.(right := t.right.left))
            && Agree(nodes, first, Ids(t.right))
  {
    Whole(nodes, id, t);
    var right := t.right.id;
    var first := nodes[id := nodes[id].(right := nodes[right].left)];
    Unmoved(nodes, first, nodes[right].left, t.right.left);
    Unmoved(nodes, first, nodes[id].left, t.left);
  }

  lemma RaisedRight(nodes: Nodes, lowered: Nodes, id: nat, t: Tree, down: Tree)
    requires Hangs(nodes, id, t) && Apart(t) && t.right.Node? && Ids(down) == Ids(t.left) + {id} + Ids(t.right.left)
    requires Only(nodes, lowered, {id}) && Linked(lowered, Some(id), down) && Apart(down)
    ensures t.right.id in lowered
    ensures var up := t.right.(left := down);
            var after := lowered[t.right.id := lowered[t.right.id].(left := Some(id))];
            Hangs(after, t.right.id, up) && Apart(up) && Only(nodes, after, {id, t.right.id}) && Ids(up) == Ids(t)
  {
    Whole(nodes, id, t);
    var right := t.right.id;
    var after := lowered[right := lowered[right].(left := Some(id))];
    Unmoved(nodes, lowered, nodes[right].right, t.right.right);
    Unmoved(lowered, after, nodes[right].right, t.right.right);
    Unmoved(lowered, after, Some(id), down);
  }

  lemma DownLeft(nodes: Nodes, id: nat, t: Tree)
    requires Hangs(nodes, id, t) && Apart(t) && t.right.Node?
    ensures id in nodes && t.right.id in nodes
    ensures Only(nodes, nodes[id := nodes[id].(right := nodes[t.right.id].left)], {id})
    ensures Ids(t.(right := t.right.left)) == Ids(t.left) + {id} + Ids(t.right.left)
  {
    Whole(nodes, id, t);
  }

  lemma InsideLeft(t: Tree)
    requires t.Node? && t.right.Node?
    ensures {t.id, t.right.id} <= Ids(t) && {t.right.id} <= Ids(t)
  {
  }

  lemma UpdateIds(t: Tree)
    requires t.Node?
    ensures Ids(A.Update(t)) == Ids(t) && Apart(A.Update(t)) == Apart(t)
  {
  }

  /** A child has been replaced. */
  lemma LeftReplaced(start: Nodes, nodes: Nodes, id: nat, t: Tree, link: Link, left: Tree, ids: set<nat>)
    requires Hangs(start, id, t) && Apart(t) && Only(start, nodes, ids) && Linked(nodes, link, left) && Apart(left)
    requires ids !! Ids(t.right) && id !in ids && Ids(left) !! Ids(t.right) && id !in Ids(left)
    ensures id in nodes
    ensures var after := nodes[id := nodes[id].(left := link)];
            && Hangs(after, id, t.(left := left)) && Apart(t.(left := left)) && Only(start, after, ids + {id})
            && Ids(t.(left := left)) == Ids(left) + {id} + Ids(t.right)
  {
    Whole(start, id, t);
    var after := nodes[id := nodes[id].(left := link)];
    Unmoved(nodes, after, link, left);
    Unmoved(start, after, start[id].right, t.right);
  }

  lemma RightReplaced(start: Nodes, nodes: Nodes, id: nat, t: Tree, link: Link, right: Tree, ids: set<nat>)
    requires Hangs(start, id, t) && Apart(t) && Only(start, nodes, ids) && Linked(nodes, link, right) && Apart(right)
    requires ids !! Ids(t.left) && id !in ids && Ids(right) !! Ids(t.left) && id !in Ids(right)
    ensures id in nodes
    ensures var after := nodes[id := nodes[id].(right := link)];
            && Hangs(after, id, t.(right := right)) && Apart(t.(right := right)) && Only(start, after, ids + {id})
            && Ids(t.(right := right)) == Ids(t.left) + {id} + Ids(right)
  {
    Whole(start, id, t);
    var after := nodes[id := nodes[id].(right := link)];
    Unmoved(nodes, after, link, right);
    Unmoved(start, after, start[id].left, t.left);
  }

  /** What holds of the parts of a tree without repetitions. */
  lemma Parts(t: Tree)
    requires Apart(t) && t.Node?
    ensures Apart(t.left) && Apart(t.right) && t.id !in Ids(t.left) && t.id !in Ids(t.right)
    ensures Ids(t.left) !! Ids(t.right)
    ensures Ids(t) == Ids(t.left) + {t.id} + Ids(t.right)
  {
  }

  /** An ordered tree repeats nothing, and its ids lie between its bounds. */
  lemma {:induction false} OrderedApart(t: Tree, low: int, high: int)
    requires A.Avl(t, low, high)
    ensures Apart(t) && forall k :: k in Ids(t) ==> low < k < high
    decreases t
  {
    if t.Node? {
      OrderedApart(t.left, low, t.id);
      OrderedApart(t.right, t.id, high);
    }
  }

  lemma {:induction false} IdsFound(t: Tree, low: int, high: int, k: nat)
    requires A.Avl(t, low, high)
    ensures k in Ids(t) <==> A.Lookup(t, k).Some?
    decreases t
  {
    if t.Node? {
      IdsFound(t.left, low, t.id, k);
      IdsFound(t.right, t.id, high, k);
      OrderedApart(t.left, low, t.id);
      OrderedApart(t.right, t.id, high);
    }
  }

  /** What removal leaves. */
  lemma RemovedIds(t: Tree, low: int, high: int, id: nat)
    requires A.Avl(t, low, high)
    ensures Ids(A.Remove(t, id)) == Ids(t) - {id} && Apart(A.Remove(t, id)) && Apart(t)
  {
    A.RemoveValid(t, low, high, id);
    OrderedApart(A.Remove(t, id), low, high);
    OrderedApart(t, low, high);
    forall k: nat ensures k in Ids(A.Remove(t, id)) <==> k in Ids(t) - {id} {
      A.RemoveLookup(t, low, high, id, k);
      IdsFound(A.Remove(t, id), low, high, k);
      IdsFound(t, low, high, k);
    }
    hide Ids, Apart, A.Avl, A.Remove, A.Lookup;
  }

  /** The node that takes the place of a removed one, and the trees that it takes over. */
  lemma Succeeded(start: Nodes, nodes: Nodes, id: nat, t: Tree, s: Tree, link: Link, rest: Tree)
    requires Hangs(start, id, t) && Apart(t) && s.Node? && s.id in Ids(t.right) && s.id in start
    requires start[s.id].active == s.active && Only(start, nodes, Ids(t.right)) && Linked(nodes, link, rest)
    requires Ids(rest) == Ids(t.right) - {s.id} && Apart(rest)
    ensures id in nodes && s.id in nodes && nodes[id].left == start[id].left
    ensures var taken := s.(left := t.left, right := rest);
            var after := nodes[s.id := nodes[s.id].(left := nodes[id].left, right := link)];
            && Hangs(after, s.id, taken) && Apart(taken) && Only(start, after, Ids(t.right)) && Ids(taken) <= Ids(t)
  {
    Whole(start, id, t);
    var after := nodes[s.id := nodes[s.id].(left := nodes[id].left, right := link)];
    Unmoved(nodes, after, link, rest);
    Unmoved(start, after, start[id].left, t.left);
  }

  lemma LeftmostInside(t: Tree)
    requires t.Node?
    ensures A.Leftmost(t).id in Ids(t)
  {
  }

  /** A node whose activity is set. */
  lemma Activated(nodes: Nodes, id: nat, t: Tree, active: bool)
    requires Hangs(nodes, id, t) && Apart(t)
    ensures id in nodes
    ensures var after := nodes[id := nodes[id].(active := active)];
            Hangs(after, id, t.(active := active)) && Within(nodes, after, Ids(t)) && Apart(t.(active := active))
  {
    Whole(nodes, id, t);
    var after := nodes[id := nodes[id].(active := active)];
    Unmoved(nodes, after, nodes[id].left, t.left);
    Unmoved(nodes, after, nodes[id].right, t.right);
  }

  /** A subtree has changed within itself. */
  lemma LeftChanged(start: Nodes, nodes: Nodes, id: nat, t: Tree, left: Tree)
    requires Hangs(start, id, t) && Apart(t) && Within(start, nodes, Ids(t.left)) && Ids(left) == Ids(t.left)
    requires Apart(left)
    requires Linked(nodes, start[id].left, left)
    ensures Hangs(nodes, id, t.(left := left)) && Apart(t.(left := left)) && Within(start, nodes, Ids(t))
    ensures Ids(t.(left := left)) == Ids(t)
  {
    Whole(start, id, t);
    Unmoved(start, nodes, start[id].right, t.right);
  }

  lemma RightChanged(start: Nodes, nodes: Nodes, id: nat, t: Tree, right: Tree)
    requires Hangs(start, id, t) && Apart(t) && Within(start, nodes, Ids(t.right)) && Ids(right) == Ids(t.right)
    requires Apart(right)
    requires Linked(nodes, start[id].right, right)
    ensures Hangs(nodes, id, t.(right := right)) && Apart(t.(right := right)) && Within(start, nodes, Ids(t))
    ensures Ids(t.(right := right)) == Ids(t)
  {
    Whole(start, id, t);
    Unmoved(start, nodes, start[id].left, t.left);
  }

  lemma WithinMore(a: Nodes, b: Nodes, c: Nodes, ids: set<nat>, more: set<nat>)
    requires Within(a, b, ids) && Within(b, c, more) && more <= ids
    ensures Within(a, c, ids)
  {
  }

  /** The index of one consumer: its nodes by id, and the tree that they form. */
  class ActiveGpuAdmissions {
    var nodes: Nodes
    var rootNode: Link
    ghost var root: Tree
    ghost var bound: nat

    method Update(id: nat, ghost t: Tree)
      requires Hangs(nodes, id, t) && Apart(t)
      modifies `nodes
      ensures Linked(nodes, Some(id), A.Update(t)) && Only(old(nodes), nodes, {id})
    {
      hide Hangs, Linked, Ids, Apart, HeightOf, CountOf, Only;
      RefreshedLinked(nodes, id, t);
      var node := nodes[id];
      var l, r := HeightOf(nodes, node.left), HeightOf(nodes, node.right);
      nodes := nodes[id := node.(height := 1 + (if l >= r then l else r),
                                 count := (if node.active then 1 else 0)
                                          + CountOf(nodes, node.left) + CountOf(nodes, node.right))];
    }

    method RotateRight(id: nat, ghost t: Tree) returns (top: nat)
      requires Hangs(nodes, id, t) && Apart(t) && t.left.Node?
      modifies `nodes
      ensures Linked(nodes, Some(top), A.RotateRight(t)) && Only(old(nodes), nodes, Ids(t))
      ensures Ids(A.RotateRight(t)) == Ids(t) && Apart(A.RotateRight(t))
    {
      hide Hangs, Linked, Ids, Apart, Only;
      Whole(nodes, id, t);
      RotatedRight(nodes, id, t);
      DownRight(nodes, id, t);
      top := nodes[id].left.value;
      ghost var start := nodes;
      nodes := nodes[id := nodes[id].(left := nodes[top].right)];
      ghost var down, first := t.(left := t.left.right), nodes;
      Update(id, down);
      UpdateIds(down);
      OnlyMore(start, first, nodes, {id}, {id}, {id});
      RaisedLeft(start, nodes, id, t, A.Update(down));
      nodes := nodes[top := nodes[top].(right := Some(id))];
      ghost var raised := nodes;
      Update(top, t.left.(right := A.Update(down)));
      UpdateIds(t.left.(right := A.Update(down)));
      InsideRight(t);
      OnlyMore(start, raised, nodes, {id, top}, {top}, Ids(t));
    }

    method RotateLeft(id: nat, ghost t: Tree) returns (top: nat)
      requires Hangs(nodes, id, t) && Apart(t) && t.right.Node?
      modifies `nodes
      ensures Linked(nodes, Some(top), A.RotateLeft(t)) && Only(old(nodes), nodes, Ids(t))
      ensures Ids(A.RotateLeft(t)) == Ids(t) && Apart(A.RotateLeft(t))
    {
      hide Hangs, Linked, Ids, Apart, Only;
      Whole(nodes, id, t);
      RotatedLeft(nodes, id, t);
      DownLeft(nodes, id, t);
      top := nodes[id].right.value;
      ghost var start := nodes;
      nodes := nodes[id := nodes[id].(right := nodes[top].left)];
      ghost var down, first := t.(right := t.right.left), nodes;
      Update(id, down);
      UpdateIds(down);
      OnlyMore(start, first, nodes, {id}, {id}, {id});
      RaisedRight(start, nodes, id, t, A.Update(down));
      nodes := nodes[top := nodes[top].(left := Some(id))];
      ghost var raised := nodes;
      Update(top, t.right.(left := A.Update(down)));
      UpdateIds(t.right.(left := A.Update(down)));
      InsideLeft(t);
      OnlyMore(start, raised, nodes, {id, top}, {top}, Ids(t));
    }

    /** Restores the balance of a node whose subtrees differ by at most two levels. */
    method Balance(id: nat, ghost t: Tree) returns (top: nat)
      requires Hangs(nodes, id, t) && Apart(t)
      modifies `nodes
      ensures Linked(nodes, Some(top), A.Balance(t)) && Only(old(nodes), nodes, Ids(t))
      ensures Ids(A.Balance(t)) == Ids(t) && Apart(A.Balance(t))
    {
      hide Hangs, Linked, Ids, Apart, Only, HeightOf;
      ghost var start := nodes;
      Whole(nodes, id, t);
      Update(id, t);
      ghost var u, updated := A.Update(t), nodes;
      UpdateIds(t);
      Child(nodes, Some(id), u);
      Whole(nodes, id, u);
      Parts(u);
      LinkedSizes(nodes, nodes[id].left, u.left);
      LinkedSizes(nodes, nodes[id].right, u.right);
      OnlySame(nodes, {id});
      OnlyMore(start, nodes, nodes, {id}, {id}, Ids(t));
      var difference := HeightOf(nodes, nodes[id].left) - HeightOf(nodes, nodes[id].right);
      if difference > 1 {
        var left := nodes[id].left.value;
        LinkedSizes(nodes, nodes[left].left, u.left.left);
        LinkedSizes(nodes, nodes[left].right, u.left.right);
        if HeightOf(nodes, nodes[left].left) < HeightOf(nodes, nodes[left].right) {
          var child := RotateLeft(left, u.left);
          LeftReplaced(updated, nodes, id, u, Some(child), A.RotateLeft(u.left), Ids(u.left));
          nodes := nodes[id := nodes[id].(left := Some(child))];
          OnlyMore(start, updated, nodes, Ids(t), Ids(u.left) + {id}, Ids(t));
          u := u.(left := A.RotateLeft(u.left));
        }
        ghost var before := nodes;
        top := RotateRight(id, u);
        OnlyMore(start, before, nodes, Ids(t), Ids(t), Ids(t));
      } else if difference < -1 {
        var right := nodes[id].right.value;
        LinkedSizes(nodes, nodes[right].left, u.right.left);
        LinkedSizes(nodes, nodes[right].right, u.right.right);
        if HeightOf(nodes, nodes[right].right) < HeightOf(nodes, nodes[right].left) {
          var child := RotateRight(right, u.right);
          RightReplaced(updated, nodes, id, u, Some(child), A.RotateRight(u.right), Ids(u.right));
          nodes := nodes[id := nodes[id].(right := Some(child))];
          OnlyMore(start, updated, nodes, Ids(t), Ids(u.right) + {id}, Ids(t));
          u := u.(right := A.RotateRight(u.right));
        }
        ghost var before := nodes;
        top := RotateLeft(id, u);
        OnlyMore(start, before, nodes, Ids(t), Ids(t), Ids(t));
      } else {
        top := id;
      }
    }

    /** Links a new node in. */
    method Insert(link: Link, id: nat, ghost t: Tree) returns (top: Link)
      requires Linked(nodes, link, t) && Apart(t) && id !in Ids(t)
      requires id in nodes && nodes[id] == Admission(true, None, None, 1, 1)
      modifies `nodes
      ensures Linked(nodes, top, A.Insert(t, id)) && Apart(A.Insert(t, id))
      ensures Ids(A.Insert(t, id)) == Ids(t) + {id} && Only(old(nodes), nodes, Ids(t) + {id})
      decreases t
    {
      LinkedSizes(nodes, link, t);
      if link.None? {
        OnlySame(nodes, Ids(t) + {id});
        return Some(id);
      }
      hide Hangs, Linked, Ids, Apart, Only;
      ghost var start := nodes;
      var current := link.value;
      Child(nodes, link, t);
      Parts(t);
      if id < current {
        var left := Insert(nodes[current].left, id, t.left);
        ghost var inserted := A.Insert(t.left, id);
        LeftReplaced(start, nodes, current, t, left, inserted, Ids(t.left) + {id});
        nodes := nodes[current := nodes[current].(left := left)];
        ghost var linked := nodes;
        var balanced := Balance(current, t.(left := inserted));
        OnlyMore(start, linked, nodes, Ids(t.left) + {id} + {current}, Ids(t.(left := inserted)), Ids(t) + {id});
        return Some(balanced);
      } else {
        var right := Insert(nodes[current].right, id, t.right);
        ghost var inserted := A.Insert(t.right, id);
        RightReplaced(start, nodes, current, t, right, inserted, Ids(t.right) + {id});
        nodes := nodes[current := nodes[current].(right := right)];
        ghost var linked := nodes;
        var balanced := Balance(current, t.(right := inserted));
        OnlyMore(start, linked, nodes, Ids(t.right) + {id} + {current}, Ids(t.(right := inserted)), Ids(t) + {id});
        return Some(balanced);
      }
    }

    /** Unlinks a node. Of two subtrees the first node of the right one takes its place. */
    method Remove(link: Link, id: nat, ghost t: Tree, ghost low: int, ghost high: int) returns (top: Link)
      requires Linked(nodes, link, t) && A.Avl(t, low, high)
      modifies `nodes
      ensures Linked(nodes, top, A.Remove(t, id)) && Only(old(nodes), nodes, Ids(t))
      decreases t
    {
      LinkedSizes(nodes, link, t);
      OrderedApart(t, low, high);
      OnlySame(nodes, Ids(t));
      if link.None? {
        return None;
      }
      hide Hangs, Linked, Ids, Apart, Only;
      ghost var start := nodes;
      var current := link.value;
      Child(nodes, link, t);
      Parts(t);
      LinkedSizes(nodes, nodes[current].left, t.left);
      LinkedSizes(nodes, nodes[current].right, t.right);
      if id < current {
        var left := Remove(nodes[current].left, id, t.left, low, t.id);
        RemovedIds(t.left, low, t.id, id);
        ghost var removed := A.Remove(t.left, id);
        LeftReplaced(start, nodes, current, t, left, removed, Ids(t.left));
        nodes := nodes[current := nodes[current].(left := left)];
        ghost var linked := nodes;
        var balanced := Balance(current, t.(left := removed));
        OnlyMore(start, linked, nodes, Ids(t.left) + {current}, Ids(t.(left := removed)), Ids(t));
        return Some(balanced);
      } else if id > current {
        var right := Remove(nodes[current].right, id, t.right, t.id, high);
        RemovedIds(t.right, t.id, high, id);
        ghost var removed := A.Remove(t.right, id);
        RightReplaced(start, nodes, current, t, right, removed, Ids(t.right));
        nodes := nodes[current := nodes[current].(right := right)];
        ghost var linked := nodes;
        var balanced := Balance(current, t.(right := removed));
        OnlyMore(start, linked, nodes, Ids(t.right) + {current}, Ids(t.(right := removed)), Ids(t));
        return Some(balanced);
      } else if nodes[current].left.None? {
        return nodes[current].right;
      } else if nodes[current].right.None? {
        return nodes[current].left;
      } else {
        top := Replace(current, t, low, high);
      }
    }

    /** The successor of a node with two subtrees takes its place. */
    method Replace(current: nat, ghost t: Tree, ghost low: int, ghost high: int) returns (top: Link)
      requires Hangs(nodes, current, t) && A.Avl(t, low, high) && t.left.Node? && t.right.Node?
      modifies `nodes
      ensures Linked(nodes, top, A.Remove(t, current)) && Only(old(nodes), nodes, Ids(t))
      decreases t, 0
    {
      hide Hangs, Linked, Ids, Apart, Only;
      ghost var start := nodes;
      OrderedApart(t, low, high);
      Whole(nodes, current, t);
      Parts(t);
      var successor := nodes[current].right.value;
      ghost var s := t.right;
      while nodes[successor].left.Some?
        invariant Hangs(nodes, successor, s) && successor in nodes && s.Node? && nodes == start
        invariant A.Leftmost(s) == A.Leftmost(t.right)
        decreases s
      {
        Whole(nodes, successor, s);
        successor := nodes[successor].left.value;
        s := s.left;
      }
      Whole(nodes, successor, s);
      LeftmostInside(t.right);
      var right := Remove(nodes[current].right, successor, t.right, t.id, high);
      RemovedIds(t.right, t.id, high, successor);
      ghost var rest := A.Remove(t.right, successor);
      Succeeded(start, nodes, current, t, s, right, rest);
      nodes := nodes[successor := nodes[successor].(left := nodes[current].left, right := right)];
      ghost var linked := nodes;
      var balanced := Balance(successor, s.(left := t.left, right := rest));
      OnlyMore(start, linked, nodes, Ids(t.right), Ids(s.(left := t.left, right := rest)), Ids(t));
      return Some(balanced);
    }

    /** Sets the activity of a node and brings the counts above it up to date. */
    method Activate(id: nat, active: bool, current: nat, ghost t: Tree)
      requires Linked(nodes, Some(current), t) && Apart(t) && A.Lookup(t, id).Some?
      modifies `nodes
      ensures Linked(nodes, Some(current), A.Activate(t, id, active)) && Within(old(nodes), nodes, Ids(t))
      ensures Ids(A.Activate(t, id, active)) == Ids(t) && Apart(A.Activate(t, id, active))
      decreases t
    {
      hide Hangs, Linked, Ids, Apart, Within;
      ghost var start := nodes;
      LinkedSizes(nodes, Some(current), t);
      Child(nodes, Some(current), t);
      Whole(nodes, current, t);
      Parts(t);
      ghost var changed: Tree;
      if id == current {
        Activated(nodes, current, t, active);
        changed := t.(active := active);
        nodes := nodes[current := nodes[current].(active := active)];
        SameIds(t, active);
      } else if id < current {
        Activate(id, active, nodes[current].left.value, t.left);
        changed := t.(left := A.Activate(t.left, id, active));
        LeftChanged(start, nodes, current, t, A.Activate(t.left, id, active));
      } else {
        Activate(id, active, nodes[current].right.value, t.right);
        changed := t.(right := A.Activate(t.right, id, active));
        RightChanged(start, nodes, current, t, A.Activate(t.right, id, active));
      }
      ghost var before := nodes;
      Update(current, changed);
      UpdateIds(changed);
      WithinMore(start, before, nodes, Ids(t), {current});
    }

    /** The search of the tree, over the links. */
    method Next(link: Link, cursor: int, ghost t: Tree) returns (found: Option<nat>)
      requires Linked(nodes, link, t)
      ensures found == A.Next(t, cursor)
      decreases t
    {
      if link.None? || nodes[link.value].count == 0 {
        return None;
      }
      if link.value <= cursor {
        found := Next(nodes[link.value].right, cursor, t.right);
        return;
      }
      found := Next(nodes[link.value].left, cursor, t.left);
      if found.None? {
        if nodes[link.value].active {
          return Some(link.value);
        }
        found := Next(nodes[link.value].right, cursor, t.right);
      }
    }

    /** The links form an AVL tree of exactly the nodes that are kept. */
    ghost predicate Valid()
      reads this
    {
      Linked(nodes, rootNode, root) && nodes.Keys == Ids(root) && A.Avl(root, -1, bound)
    }

    /** The recorded activity of an id. */
    ghost function At(id: nat): Option<bool>
      reads this
    {
      A.Lookup(root, id)
    }

    constructor ()
      ensures Valid() && root == A.Empty && forall id :: At(id) == None
    {
      nodes, rootNode, root, bound := map[], None, A.Empty, 0;
    }

    /** A new index in place of the old one. */
    method Reset()
      modifies this
      ensures Valid() && root == A.Empty
    {
      nodes, rootNode, root, bound := map[], None, A.Empty, 0;
    }

    method Add(id: nat)
      requires Valid() && At(id).None?
      modifies this
      ensures Valid() && A.Updated(old(root), root, id, Some(true))
    {
      hide Hangs, Linked, Ids, Apart, Only, A.Avl;
      if bound <= id {
        A.Widen(root, -1, bound, -1, id + 1);
        bound := id + 1;
      }
      OrderedApart(root, -1, bound);
      IdsFound(root, -1, bound, id);
      A.InsertValid(root, -1, bound, id);
      InsertUpdates(root, bound, id);
      var more := nodes[id := Admission(true, None, None, 1, 1)];
      Unmoved(nodes, more, rootNode, root);
      nodes := more;
      rootNode := Insert(rootNode, id, root);
      OnlyKeys(more, nodes, Ids(root) + {id});
      root := A.Insert(root, id);
    }

    method Delete(id: nat)
      requires Valid()
      modifies this
      ensures Valid() && A.Updated(old(root), root, id, None)
    {
      hide Hangs, Linked, Ids, Apart, Only, A.Avl;
      RemovedIds(root, -1, bound, id);
      A.RemoveValid(root, -1, bound, id);
      RemoveUpdates(root, bound, id);
      if id !in nodes {
        UpdatedNothing(root, bound, id);
        return;
      }
      ghost var before := nodes;
      rootNode := Remove(rootNode, id, root, -1, bound);
      OnlyKeys(before, nodes, Ids(root));
      root := A.Remove(root, id);
      Unmoved(nodes, nodes - {id}, rootNode, root);
      nodes := nodes - {id};
    }

    method SetActive(id: nat, active: bool)
      requires Valid()
      modifies this
      ensures Valid()
      ensures A.Updated(old(root), root, id, if old(At(id)).Some? then Some(active) else None)
    {
      hide Hangs, Linked, Ids, Apart, Within, A.Avl, A.Updated;
      OrderedApart(root, -1, bound);
      IdsFound(root, -1, bound, id);
      if id !in nodes {
        UpdatedNothing(root, bound, id);
        return;
      }
      NodeActivity(nodes, rootNode, root, -1, bound, id);
      if nodes[id].active == active {
        UpdatedSame(root, id, active);
        return;
      }
      LinkedSizes(nodes, rootNode, root);
      A.ActivateValid(root, -1, bound, id, active);
      ActivateUpdates(root, id, active);
      ghost var before := nodes;
      Activate(id, active, rootNode.value, root);
      WithinKeys(before, nodes, Ids(root));
      root := A.Activate(root, id, active);
    }

    method NextAfter(cursor: int) returns (found: Option<nat>)
      requires Valid()
      ensures A.IsNextAfter(root, cursor, found)
    {
      A.NextIsNextAfter(root, -1, bound, cursor);
      found := Next(rootNode, cursor, root);
    }
  }

  lemma SameIds(t: Tree, active: bool)
    requires t.Node?
    ensures Ids(t.(active := active)) == Ids(t)
  {
  }

  lemma OnlyKeys(before: Nodes, after: Nodes, ids: set<nat>)
    requires Only(before, after, ids)
    ensures before.Keys == after.Keys
  {
  }

  lemma WithinKeys(before: Nodes, after: Nodes, ids: set<nat>)
    requires Within(before, after, ids)
    ensures before.Keys == after.Keys
  {
  }

  lemma InsertUpdates(tree: Tree, bound: nat, id: nat)
    requires A.Avl(tree, -1, bound) && id < bound && A.Lookup(tree, id).None?
    ensures A.Updated(tree, A.Insert(tree, id), id, Some(true))
  {
    forall other: nat
      ensures A.Lookup(A.Insert(tree, id), other) == if other == id then Some(true) else A.Lookup(tree, other)
    {
      A.InsertLookup(tree, -1, bound, id, other);
    }
  }

  lemma RemoveUpdates(tree: Tree, bound: nat, id: nat)
    requires A.Avl(tree, -1, bound)
    ensures A.Updated(tree, A.Remove(tree, id), id, None)
  {
    forall other: nat
      ensures A.Lookup(A.Remove(tree, id), other) == if other == id then None else A.Lookup(tree, other)
    {
      A.RemoveLookup(tree, -1, bound, id, other);
    }
  }

  lemma ActivateUpdates(tree: Tree, id: nat, active: bool)
    requires A.Lookup(tree, id).Some?
    ensures A.Updated(tree, A.Activate(tree, id, active), id, Some(active))
  {
    forall other: nat
      ensures A.Lookup(A.Activate(tree, id, active), other)
           == if other == id then Some(active) else A.Lookup(tree, other)
    {
      A.ActivateLookup(tree, id, active, other);
    }
  }

  lemma UpdatedNothing(tree: Tree, bound: nat, id: nat)
    requires A.Avl(tree, -1, bound) && id !in Ids(tree)
    ensures A.Updated(tree, tree, id, None)
  {
    IdsFound(tree, -1, bound, id);
  }

  lemma UpdatedSame(tree: Tree, id: nat, active: bool)
    requires A.Lookup(tree, id) == Some(active)
    ensures A.Updated(tree, tree, id, Some(active))
  {
  }

  /** A node's activity is the one recorded in the tree. */
  lemma {:induction false} NodeActivity(nodes: Nodes, link: Link, t: Tree, low: int, high: int, id: nat)
    requires Linked(nodes, link, t) && A.Avl(t, low, high) && id in Ids(t)
    ensures id in nodes && A.Lookup(t, id) == Some(nodes[id].active)
    decreases t
  {
    OrderedApart(t.left, low, t.id);
    OrderedApart(t.right, t.id, high);
    if id < t.id {
      NodeActivity(nodes, nodes[t.id].left, t.left, low, t.id, id);
    } else if id > t.id {
      NodeActivity(nodes, nodes[t.id].right, t.right, t.id, high, id);
    }
  }
}
