/**
 * The consumer's ordered index of admissions: an AVL tree in which every node
 * counts the active admissions below it. An admission is named by its id.
 */
module AdmissionIndex {
  import opened Options
  import opened Powers

  datatype Tree = Empty | Node(id: nat, active: bool, left: Tree, right: Tree, height: nat, count: nat)

  function Height(t: Tree): nat { if t.Empty? then 0 else t.height }

  function Count(t: Tree): nat { if t.Empty? then 0 else t.count }

  function Update(t: Tree): Tree
    requires t.Node?
  {
    Join(t.id, t.active, t.left, t.right)
  }

  function Join(id: nat, active: bool, left: Tree, right: Tree): (t: Tree)
    ensures t.Node?
  {
    var h := if Height(left) >= Height(right) then Height(left) else Height(right);
    Node(id, active, left, right, 1 + h, (if active then 1 else 0) + Count(left) + Count(right))
  }

  function RotateRight(t: Tree): Tree
    requires t.Node? && t.left.Node?
  {
    var left := t.left;
    Update(left.(right := Update(t.(left := left.right))))
  }

  function RotateLeft(t: Tree): Tree
    requires t.Node? && t.right.Node?
  {
    var right := t.right;
    Update(right.(left := Update(t.(right := right.left))))
  }

  function Balance(node: Tree): (t: Tree)
    requires node.Node?
  {
    var t := Update(node);
    var difference := Height(t.left) - Height(t.right);
    if difference > 1 then
      RotateRight(if Height(t.left.left) < Height(t.left.right) then t.(left := RotateLeft(t.left)) else t)
    else if difference < -1 then
      RotateLeft(if Height(t.right.right) < Height(t.right.left) then t.(right := RotateRight(t.right)) else t)
    else t
  }

  function Insert(root: Tree, id: nat): (t: Tree)
  {
    if root.Empty? then Node(id, true, Empty, Empty, 1, 1)
    else if id < root.id then Balance(root.(left := Insert(root.left, id)))
    else Balance(root.(right := Insert(root.right, id)))
  }

  function Leftmost(t: Tree): (s: Tree)
    requires t.Node?
    ensures s.Node?
  {
    if t.left.Node? then Leftmost(t.left) else t
  }

  function Remove(root: Tree, id: nat): Tree
    decreases root
  {
    if root.Empty? then Empty
    else if id < root.id then Balance(root.(left := Remove(root.left, id)))
    else if id > root.id then Balance(root.(right := Remove(root.right, id)))
    else if root.left.Empty? then root.right
    else if root.right.Empty? then root.left
    else
      var successor := Leftmost(root.right);
      Balance(successor.(left := root.left, right := Remove(root.right, successor.id)))
  }

  function Activate(root: Tree, id: nat, active: bool): Tree {
    if root.Empty? then Empty
    else if id == root.id then Update(root.(active := active))
    else if id < root.id then Update(root.(left := Activate(root.left, id, active)))
    else Update(root.(right := Activate(root.right, id, active)))
  }

  function Next(root: Tree, cursor: int): Option<nat> {
    if root.Empty? || root.count == 0 then None
    else if root.id <= cursor then Next(root.right, cursor)
    else
      var before := Next(root.left, cursor);
      if before.Some? then before else if root.active then Some(root.id) else Next(root.right, cursor)
  }

  /** The activity recorded for an id, found by its order. */
  function Lookup(t: Tree, id: nat): Option<bool> {
    if t.Empty? then None
    else if id == t.id then Some(t.active)
    else if id < t.id then Lookup(t.left, id)
    else Lookup(t.right, id)
  }

  predicate Activated(t: Tree, id: nat) { Lookup(t, id) == Some(true) }

  /** Ids in order between the bounds, heights and counts exact, siblings within one level. */
  predicate Avl(t: Tree, low: int, high: int) {
    t.Empty? ||
    (&& low < t.id < high
     && Avl(t.left, low, t.id) && Avl(t.right, t.id, high)
     && t == Update(t)
     && -1 <= Height(t.left) - Height(t.right) <= 1)
  }

  lemma LookupInside(t: Tree, low: int, high: int, id: nat)
    requires Avl(t, low, high) && Lookup(t, id).Some?
    ensures low < id < high
  {
  }

  lemma Widen(t: Tree, low: int, high: int, low': int, high': int)
    requires Avl(t, low, high) && low' <= low && high <= high'
    ensures Avl(t, low', high')
  {
  }

  lemma JoinValid(id: nat, active: bool, left: Tree, right: Tree, low: int, high: int)
    requires low < id < high && Avl(left, low, id) && Avl(right, id, high)
    requires -1 <= Height(left) - Height(right) <= 1
    ensures Avl(Join(id, active, left, right), low, high)
  {
  }

  lemma AvlParts(t: Tree, low: int, high: int)
    requires Avl(t, low, high) && t.Node?
    ensures low < t.id < high && Avl(t.left, low, t.id) && Avl(t.right, t.id, high)
    ensures t.height == 1 + if Height(t.left) >= Height(t.right) then Height(t.left) else Height(t.right)
    ensures -1 <= Height(t.left) - Height(t.right) <= 1
  {
  }

  /** Rotation by rotation, what balancing builds. */
  lemma BalanceLeftHeavy(node: Tree)
    requires node.Node? && node.left.Node? && Height(node.left) == Height(node.right) + 2
    requires Height(node.left.left) < Height(node.left.right) ==> node.left.right.Node?
    ensures var l := node.left;
            Balance(node) == if Height(l.left) < Height(l.right)
                             then Join(l.right.id, l.right.active, Join(l.id, l.active, l.left, l.right.left),
                                       Join(node.id, node.active, l.right.right, node.right))
                             else Join(l.id, l.active, l.left, Join(node.id, node.active, l.right, node.right))
  {
  }

  lemma BalanceRightHeavy(node: Tree)
    requires node.Node? && node.right.Node? && Height(node.right) == Height(node.left) + 2
    requires Height(node.right.right) < Height(node.right.left) ==> node.right.left.Node?
    ensures var r := node.right;
            Balance(node) == if Height(r.right) < Height(r.left)
                             then Join(r.left.id, r.left.active, Join(node.id, node.active, node.left, r.left.left),
                                       Join(r.id, r.active, r.left.right, r.right))
                             else Join(r.id, r.active, Join(node.id, node.active, node.left, r.left), r.right)
  {
  }

  /** The left subtree is two levels taller: one rotation, or two. */
  lemma LeftHeavy(node: Tree, low: int, high: int)
    requires node.Node? && low < node.id < high
    requires Avl(node.left, low, node.id) && Avl(node.right, node.id, high)
    requires Height(node.left) == Height(node.right) + 2
    ensures Avl(Balance(node), low, high)
    ensures Height(node.left) <= Height(Balance(node)) <= Height(node.left) + 1
  {
    hide Avl, Balance;
    var l, r := node.left, node.right;
    AvlParts(l, low, node.id);
    BalanceLeftHeavy(node);
    if Height(l.left) < Height(l.right) {
      var m := l.right;
      AvlParts(m, l.id, node.id);
      JoinValid(l.id, l.active, l.left, m.left, low, m.id);
      JoinValid(node.id, node.active, m.right, r, m.id, high);
      JoinValid(m.id, m.active, Join(l.id, l.active, l.left, m.left),
                Join(node.id, node.active, m.right, r), low, high);
    } else {
      JoinValid(node.id, node.active, l.right, r, l.id, high);
      JoinValid(l.id, l.active, l.left, Join(node.id, node.active, l.right, r), low, high);
    }
  }

  lemma RightHeavy(node: Tree, low: int, high: int)
    requires node.Node? && low < node.id < high
    requires Avl(node.left, low, node.id) && Avl(node.right, node.id, high)
    requires Height(node.right) == Height(node.left) + 2
    ensures Avl(Balance(node), low, high)
    ensures Height(node.right) <= Height(Balance(node)) <= Height(node.right) + 1
  {
    hide Avl, Balance;
    var l, r := node.left, node.right;
    AvlParts(r, node.id, high);
    BalanceRightHeavy(node);
    if Height(r.right) < Height(r.left) {
      var m := r.left;
      AvlParts(m, node.id, r.id);
      JoinValid(node.id, node.active, l, m.left, low, m.id);
      JoinValid(r.id, r.active, m.right, r.right, m.id, high);
      JoinValid(m.id, m.active, Join(node.id, node.active, l, m.left),
                Join(r.id, r.active, m.right, r.right), low, high);
    } else {
      JoinValid(node.id, node.active, l, r.left, low, r.id);
      JoinValid(r.id, r.active, Join(node.id, node.active, l, r.left), r.right, low, high);
    }
  }

  function Taller(a: nat, b: nat): nat { if a >= b then a else b }

  /** Balancing repairs a difference of two levels. */
  lemma BalanceValid(node: Tree, low: int, high: int)
    requires node.Node? && low < node.id < high
    requires Avl(node.left, low, node.id) && Avl(node.right, node.id, high)
    requires -2 <= Height(node.left) - Height(node.right) <= 2
    ensures Avl(Balance(node), low, high)
    ensures var tall := Taller(Height(node.left), Height(node.right));
            && tall <= Height(Balance(node)) <= tall + 1
            && (-1 <= Height(node.left) - Height(node.right) <= 1 ==> Height(Balance(node)) == tall + 1)
  {
    if Height(node.left) == Height(node.right) + 2 {
      LeftHeavy(node, low, high);
    } else if Height(node.right) == Height(node.left) + 2 {
      RightHeavy(node, low, high);
    } else {
      JoinValid(node.id, node.active, node.left, node.right, low, high);
    }
  }

  lemma RotateRightLookup(t: Tree, id: nat)
    requires t.Node? && t.left.Node? && t.left.id < t.id
    ensures Lookup(RotateRight(t), id) == Lookup(t, id)
  {
  }

  lemma RotateLeftLookup(t: Tree, id: nat)
    requires t.Node? && t.right.Node? && t.id < t.right.id
    ensures Lookup(RotateLeft(t), id) == Lookup(t, id)
  {
  }

  /** It keeps every lookup. */
  lemma BalanceLookup(node: Tree, low: int, high: int, id: nat)
    requires node.Node? && low < node.id < high
    requires Avl(node.left, low, node.id) && Avl(node.right, node.id, high)
    ensures Lookup(Balance(node), id) == Lookup(node, id)
  {
    var t := Update(node);
    assert Lookup(t, id) == Lookup(node, id);
    var difference := Height(t.left) - Height(t.right);
    if difference > 1 {
      var deep := Height(t.left.left) < Height(t.left.right);
      if deep {
        RotateLeftLookup(t.left, id);
      }
      RotateRightLookup(if deep then t.(left := RotateLeft(t.left)) else t, id);
    } else if difference < -1 {
      var deep := Height(t.right.right) < Height(t.right.left);
      if deep {
        RotateRightLookup(t.right, id);
      }
      RotateLeftLookup(if deep then t.(right := RotateRight(t.right)) else t, id);
    }
  }

  lemma {:induction false} InsertValid(root: Tree, low: int, high: int, id: nat)
    requires Avl(root, low, high) && low < id < high && Lookup(root, id).None?
    ensures Avl(Insert(root, id), low, high)
    ensures Height(root) <= Height(Insert(root, id)) <= Height(root) + 1
  {
    if root.Empty? {
      JoinValid(id, true, Empty, Empty, low, high);
      assert Insert(root, id) == Join(id, true, Empty, Empty);
    } else {
      if id < root.id {
        InsertValid(root.left, low, root.id, id);
        BalanceValid(root.(left := Insert(root.left, id)), low, high);
      } else {
        InsertValid(root.right, root.id, high, id);
        BalanceValid(root.(right := Insert(root.right, id)), low, high);
      }
    }
  }

  lemma {:induction false} InsertLookup(root: Tree, low: int, high: int, id: nat, other: nat)
    requires Avl(root, low, high) && low < id < high && Lookup(root, id).None?
    ensures Lookup(Insert(root, id), other) == if other == id then Some(true) else Lookup(root, other)
  {
    if root.Node? {
      if id < root.id {
        InsertValid(root.left, low, root.id, id);
        InsertLookup(root.left, low, root.id, id, other);
        BalanceLookup(root.(left := Insert(root.left, id)), low, high, other);
      } else {
        InsertValid(root.right, root.id, high, id);
        InsertLookup(root.right, root.id, high, id, other);
        BalanceLookup(root.(right := Insert(root.right, id)), low, high, other);
      }
    }
  }

  lemma {:induction false} LeftmostLookup(t: Tree, low: int, high: int)
    requires t.Node? && Avl(t, low, high)
    ensures var s := Leftmost(t);
            && Lookup(t, s.id) == Some(s.active) && low < s.id < high
            && forall k: nat :: Lookup(t, k).Some? ==> s.id <= k
  {
    if t.left.Node? {
      LeftmostLookup(t.left, low, t.id);
      forall k: nat | Lookup(t, k).Some? ensures Leftmost(t).id <= k {
        if k < t.id {
          assert Lookup(t.left, k).Some?;
        }
      }
    }
  }

  /** A tree whose ids all lie above a bound is valid above it. */
  lemma {:induction false} Raise(t: Tree, low: int, high: int, above: nat)
    requires Avl(t, low, high) && above < high
    requires forall k: nat :: Lookup(t, k).Some? ==> above < k
    ensures Avl(t, above, high)
  {
    if t.Node? {
      assert Lookup(t, t.id).Some?;
      forall k: nat | Lookup(t.left, k).Some? ensures above < k {
        LookupInside(t.left, low, t.id, k);
        assert Lookup(t, k).Some?;
      }
      Raise(t.left, low, t.id, above);
    }
  }

  /** The successor takes the place of the removed node. */
  function Promote(root: Tree): Tree
    requires root.Node? && root.left.Node? && root.right.Node?
  {
    var successor := Leftmost(root.right);
    successor.(left := root.left, right := Remove(root.right, successor.id))
  }

  lemma {:induction false} RemoveValid(root: Tree, low: int, high: int, id: nat)
    requires Avl(root, low, high)
    ensures Avl(Remove(root, id), low, high)
    ensures Height(root) - 1 <= Height(Remove(root, id)) <= Height(root)
    decreases root, 1
  {
    if root.Node? {
      if id < root.id {
        RemoveValid(root.left, low, root.id, id);
        BalanceValid(root.(left := Remove(root.left, id)), low, high);
      } else if id > root.id {
        RemoveValid(root.right, root.id, high, id);
        BalanceValid(root.(right := Remove(root.right, id)), low, high);
      } else if root.left.Empty? {
        Widen(root.right, root.id, high, low, high);
      } else if root.right.Empty? {
        Widen(root.left, low, root.id, low, high);
      } else {
        PromoteValid(root, low, high);
        BalanceValid(Promote(root), low, high);
      }
    }
  }

  lemma {:induction false} RemoveLookup(root: Tree, low: int, high: int, id: nat, other: nat)
    requires Avl(root, low, high)
    ensures Lookup(Remove(root, id), other) == if other == id then None else Lookup(root, other)
    decreases root, 1
  {
    if root.Node? {
      if id < root.id {
        RemoveValid(root.left, low, root.id, id);
        RemoveLookup(root.left, low, root.id, id, other);
        BalanceLookup(root.(left := Remove(root.left, id)), low, high, other);
      } else if id > root.id {
        RemoveValid(root.right, root.id, high, id);
        RemoveLookup(root.right, root.id, high, id, other);
        BalanceLookup(root.(right := Remove(root.right, id)), low, high, other);
      } else if root.left.Empty? || root.right.Empty? {
        RemoveEdge(root, low, high, other);
      } else {
        PromoteValid(root, low, high);
        BalanceLookup(Promote(root), low, high, other);
        PromoteLookup(root, low, high, other);
      }
    }
  }

  lemma RemoveEdge(root: Tree, low: int, high: int, other: nat)
    requires root.Node? && Avl(root, low, high) && (root.left.Empty? || root.right.Empty?)
    ensures Lookup(Remove(root, root.id), other) == if other == root.id then None else Lookup(root, other)
  {
    if Lookup(root.left, other).Some? {
      LookupInside(root.left, low, root.id, other);
    }
    if Lookup(root.right, other).Some? {
      LookupInside(root.right, root.id, high, other);
    }
  }

  lemma PromoteValid(root: Tree, low: int, high: int)
    requires root.Node? && Avl(root, low, high) && root.left.Node? && root.right.Node?
    ensures var node := Promote(root);
            && low < node.id < high
            && Avl(node.left, low, node.id) && Avl(node.right, node.id, high)
            && node.left == root.left
            && Height(root.right) - 1 <= Height(node.right) <= Height(root.right)
    decreases root, 0
  {
    var successor := Leftmost(root.right);
    LeftmostLookup(root.right, root.id, high);
    RemoveValid(root.right, root.id, high, successor.id);
    forall k: nat | Lookup(Remove(root.right, successor.id), k).Some? ensures successor.id < k {
      RemoveLookup(root.right, root.id, high, successor.id, k);
    }
    Raise(Remove(root.right, successor.id), root.id, high, successor.id);
    Widen(root.left, low, root.id, low, successor.id);
  }

  lemma PromoteLookup(root: Tree, low: int, high: int, other: nat)
    requires root.Node? && Avl(root, low, high) && root.left.Node? && root.right.Node?
    ensures Lookup(Promote(root), other) == if other == root.id then None else Lookup(root, other)
    decreases root, 0
  {
    var successor := Leftmost(root.right);
    LeftmostLookup(root.right, root.id, high);
    RemoveLookup(root.right, root.id, high, successor.id, other);
    if Lookup(root.left, other).Some? {
      LookupInside(root.left, low, root.id, other);
    }
    if Lookup(root.right, other).Some? {
      LookupInside(root.right, root.id, high, other);
    }
  }

  lemma {:induction false} ActivateValid(root: Tree, low: int, high: int, id: nat, active: bool)
    requires Avl(root, low, high)
    ensures Avl(Activate(root, id, active), low, high) && Height(Activate(root, id, active)) == Height(root)
  {
    if root.Node? {
      if id < root.id {
        ActivateValid(root.left, low, root.id, id, active);
      } else if id > root.id {
        ActivateValid(root.right, root.id, high, id, active);
      }
    }
  }

  lemma {:induction false} ActivateLookup(root: Tree, id: nat, active: bool, other: nat)
    ensures Lookup(Activate(root, id, active), other)
         == if other == id && Lookup(root, id).Some? then Some(active) else Lookup(root, other)
  {
    if root.Node? {
      ActivateLookup(root.left, id, active, other);
      ActivateLookup(root.right, id, active, other);
    }
  }

  /** The count is zero exactly when no admission below is active. */
  lemma {:induction false} NoneActive(t: Tree, low: int, high: int, id: nat)
    requires Avl(t, low, high) && Count(t) == 0
    ensures !Activated(t, id)
  {
    if t.Node? {
      NoneActive(t.left, low, t.id, id);
      NoneActive(t.right, t.id, high, id);
    }
  }

  /** The least active id above the cursor, or none. */
  ghost predicate IsNextAfter(t: Tree, cursor: int, r: Option<nat>) {
    match r
    case None => forall id: nat :: id > cursor ==> !Activated(t, id)
    case Some(least) =>
      && least > cursor && Activated(t, least)
      && forall id: nat :: cursor < id < least ==> !Activated(t, id)
  }

  lemma {:induction false} NextIsNextAfter(t: Tree, low: int, high: int, cursor: int)
    requires Avl(t, low, high)
    ensures IsNextAfter(t, cursor, Next(t, cursor))
    ensures Next(t, cursor).Some? ==> low < Next(t, cursor).value < high
  {
    if t.Node? {
      if t.count == 0 {
        forall id: nat ensures !Activated(t, id) {
          NoneActive(t, low, high, id);
        }
      } else {
        NextIsNextAfter(t.left, low, t.id, cursor);
        NextIsNextAfter(t.right, t.id, high, cursor);
        NextFound(t, low, high, cursor);
      }
    }
  }

  lemma NextFound(t: Tree, low: int, high: int, cursor: int)
    requires t.Node? && t.count > 0 && low < t.id < high
    requires IsNextAfter(t.left, cursor, Next(t.left, cursor)) && IsNextAfter(t.right, cursor, Next(t.right, cursor))
    requires Next(t.left, cursor).Some? ==> low < Next(t.left, cursor).value < t.id
    requires Next(t.right, cursor).Some? ==> t.id < Next(t.right, cursor).value < high
    ensures IsNextAfter(t, cursor, Next(t, cursor))
    ensures Next(t, cursor).Some? ==> low < Next(t, cursor).value < high
  {
    forall id: nat | Activated(t, id) ensures id == t.id || Activated(t.left, id) || Activated(t.right, id) {
    }
  }

  /** The nodes that a search visits, the empty subtrees it looks into included. */
  function Visits(root: Tree, cursor: int): nat {
    if root.Empty? || root.count == 0 then 1
    else if root.id <= cursor then 1 + Visits(root.right, cursor)
    else if Next(root.left, cursor).Some? || root.active then 1 + Visits(root.left, cursor)
    else 1 + Visits(root.left, cursor) + Visits(root.right, cursor)
  }

  /** Where every id is above the cursor, the first active one is found on the way down. */
  lemma {:induction false} VisitsAbove(t: Tree, low: int, high: int, cursor: int)
    requires Avl(t, low, high) && cursor <= low
    ensures Visits(t, cursor) <= 2 * Height(t) + 1
    ensures Count(t) > 0 ==> Next(t, cursor).Some?
  {
    if t.Node? && t.count > 0 {
      VisitsAbove(t.left, low, t.id, cursor);
      VisitsAbove(t.right, t.id, high, cursor);
    }
  }

  /** A search visits a number of nodes linear in the height. */
  lemma {:induction false} VisitsLinear(t: Tree, low: int, high: int, cursor: int)
    requires Avl(t, low, high)
    ensures Next(t, cursor).None? ==> Visits(t, cursor) <= 2 * Height(t) + 1
    ensures Visits(t, cursor) <= 4 * Height(t) + 1
  {
    if t.Node? && t.count > 0 {
      VisitsLinear(t.left, low, t.id, cursor);
      VisitsLinear(t.right, t.id, high, cursor);
      if t.id > cursor {
        VisitsAbove(t.right, t.id, high, t.id);
        VisitsAboveCursor(t.right, t.id, high, cursor);
      }
    }
  }

  lemma VisitsAboveCursor(t: Tree, low: int, high: int, cursor: int)
    requires Avl(t, low, high) && cursor < low
    ensures Visits(t, cursor) <= 2 * Height(t) + 1 && (Count(t) > 0 ==> Next(t, cursor).Some?)
    ensures Count(t) == 0 ==> Visits(t, cursor) == 1
  {
    VisitsAbove(t, low, high, cursor);
  }

  function Size(t: Tree): nat { if t.Empty? then 0 else 1 + Size(t.left) + Size(t.right) }

  /** And the height is logarithmic: a tree of height h holds at least 2^(h/2) - 1 admissions. */
  lemma {:induction false} HeightLogarithmic(t: Tree, low: int, high: int)
    requires Avl(t, low, high)
    ensures Pow2(Height(t) / 2) <= Size(t) + 1
  {
    if t.Node? {
      HeightLogarithmic(t.left, low, t.id);
      HeightLogarithmic(t.right, t.id, high);
      var h := Height(t);
      if h > 1 {
        Pow2Monotone(h / 2 - 1, Height(t.left) / 2);
        Pow2Monotone(h / 2 - 1, Height(t.right) / 2);
        Pow2Double(h / 2 - 1);
      }
    }
  }

  /** The same lookups, but for one id. */
  ghost predicate Updated(t: Tree, t': Tree, id: nat, entry: Option<bool>) {
    forall other: nat :: Lookup(t', other) == if other == id then entry else Lookup(t, other)
  }
}
