/** A session's semantic owners: retaining and releasing them, and collecting the cycles that gradients close. */
module SessionOwnership {
  import opened Options
  import opened Ownership
  import opened Sequences

  /** The retirement queue holds exactly the identities that nobody refers to any more. */
  predicate Queued(objects: seq<Object>, queue: seq<Id>) {
    && (forall q :: q in queue ==> q < |objects| && objects[q].Identity? && objects[q].references == 0)
    && (forall i :: 0 <= i < |objects| && objects[i].Identity? && !objects[i].retired && objects[i].references == 0 ==>
          i in queue)
  }

  function Retired(o: Object): Object
    requires o.Identity?
  {
    o.(retired := true, gradient := None, entry := None)
  }

  /** The objects after one reference to an identity, if to any, is given up while others are being retired. */
  function Lost(objects: seq<Object>, id: Option<Id>): (r: seq<Object>)
    ensures |r| == |objects|
  {
    match id
    case None => objects
    case Some(i) =>
      if i < |objects| && objects[i].Identity? && !objects[i].retired && objects[i].references > 0
      then objects[i := Dropped(objects[i])] else objects
  }

  /** The identity that nobody refers to once that reference is given up. */
  function Freed(objects: seq<Object>, id: Option<Id>): seq<Id> {
    match id
    case None => []
    case Some(i) =>
      if i < |objects| && objects[i].Identity? && !objects[i].retired && objects[i].references == 1 then [i] else []
  }

  /** What retiring an identity frees before it gives up its history: its gradient, and then its base. */
  function FirstFreed(objects: seq<Object>, i: Id): seq<Id>
    requires i < |objects| && objects[i].Identity?
  {
    var retired := objects[i := Retired(objects[i])];
    Freed(retired, objects[i].gradient) + Freed(Lost(retired, objects[i].gradient), objects[i].base)
  }

  /** The history that retiring an identity gives up; a leaf does not own the node that stands for it. */
  function OwnedEntry(o: Object): Option<Id>
    requires o.Identity?
  {
    if o.trueLeaf then None else o.entry
  }

  /** The present ones, in order. */
  function Present(ids: seq<Option<Id>>): (r: seq<Id>)
    ensures forall q :: q in r ==> Some(q) in ids
  {
    if ids == [] then [] else Present(ids[..|ids| - 1]) + if ids[|ids| - 1].Some? then [ids[|ids| - 1].value] else []
  }

  lemma {:induction false} PresentAll(ids: seq<Option<Id>>)
    ensures multiset(Present(ids)) == All(ids)
  {
    if ids != [] {
      PresentAll(ids[..|ids| - 1]);
    }
  }

  lemma DropQueued(objects: seq<Object>, queue: seq<Id>, i: Id)
    requires Queued(objects, queue) && i < |objects| && objects[i].references > 0 && Dropped(objects[i]).Identity?
    requires objects[i].Identity?
    ensures Queued(objects[i := Dropped(objects[i])], if objects[i].references == 1 then queue + [i] else queue)
  {
  }

  lemma DropNodeQueued(objects: seq<Object>, queue: seq<Id>, i: Id)
    requires Queued(objects, queue) && i < |objects| && objects[i].references > 0 && objects[i].HistoryNode?
    ensures Queued(objects[i := Dropped(objects[i])], queue)
  {
  }

  lemma RetireQueued(objects: seq<Object>, queue: seq<Id>, i: Id)
    requires Queued(objects, queue + [i]) && i < |objects| && objects[i].Identity?
    ensures Queued(objects[i := Retired(objects[i])], queue)
  {
    var r := objects[i := Retired(objects[i])];
    forall k | 0 <= k < |r| && r[k].Identity? && !r[k].retired && r[k].references == 0 ensures k in queue {
      assert k in queue + [i];
    }
    forall q | q in queue ensures q < |r| && r[q].Identity? && r[q].references == 0 {
      assert q in queue + [i];
    }
  }

  lemma SkipQueued(objects: seq<Object>, queue: seq<Id>, i: Id)
    requires Queued(objects, queue + [i]) && i < |objects| && objects[i].Identity? && objects[i].retired
    ensures Queued(objects, queue)
  {
    forall k | 0 <= k < |objects| && objects[k].Identity? && !objects[k].retired && objects[k].references == 0
      ensures k in queue
    {
      assert k in queue + [i];
    }
    forall q | q in queue ensures q < |objects| && objects[q].Identity? && objects[q].references == 0 {
      assert q in queue + [i];
    }
  }

  lemma SameQueued(objects: seq<Object>, queue: seq<Id>, after: seq<Id>)
    requires Queued(objects, queue) && multiset(queue) == multiset(after)
    ensures Queued(objects, after)
  {
    forall q: Id ensures q in after <==> q in queue {
      assert q in multiset(after) <==> q in multiset(queue);
    }
  }

  lemma ReversedQueued(objects: seq<Object>, queue: seq<Id>, offset: nat)
    requires Queued(objects, queue) && offset <= |queue|
    ensures Queued(objects, queue[..offset] + Reverse(queue[offset..]))
  {
    ReverseSame(queue[offset..]);
    hide Reverse;
    var after := queue[..offset] + Reverse(queue[offset..]);
    assert queue == queue[..offset] + queue[offset..];
    assert multiset(queue) == multiset(queue[..offset]) + multiset(queue[offset..]) == multiset(after);
    SameQueued(objects, queue, after);
  }

  lemma UpdateFades(objects: seq<Object>, i: Id, o: Object)
    requires i < |objects| && Wanes(objects[i], o)
    requires Alive(o) ==> Alive(objects[i]) && SameEdges(objects[i], o)
    ensures Fades(objects, objects[i := o])
    ensures Alive(objects[i]) && !Alive(o) ==> Living(objects[i := o]) < Living(objects)
  {
    var r := objects[i := o];
    forall k | 0 <= k < |objects| ensures FadesAt(objects, r, k) {
    }
    LivingFewer(objects, r);
    hide Alive;
  }

  lemma StaysDead(before: seq<Object>, after: seq<Object>, i: Id)
    requires Fades(before, after) && i < |before| && !Alive(before[i])
    ensures !Alive(after[i])
  {
    assert FadesAt(before, after, i);
  }

  /** All that a release does to an object that it drops. */
  lemma Dropping(objects: seq<Object>, i: Id, external: multiset<Id>)
    requires Counted(objects, external) && i in external
    ensures i < |objects| && objects[i].references > 0 && Alive(objects[i])
    ensures Fades(objects, objects[i := Dropped(objects[i])])
    ensures Associations(objects[i := Dropped(objects[i])]) == Associations(objects)
    ensures Dropped(objects[i]).references == objects[i].references - 1
    ensures objects[i].HistoryNode? && objects[i].references == 1 ==>
              Living(objects[i := Dropped(objects[i])]) < Living(objects)
  {
    TargetAlive(objects, external, i);
    assert CountedAt(objects, external, i);
    UpdateFades(objects, i, Dropped(objects[i]));
    AssociationsUpdate(objects, i, Dropped(objects[i]));
    hide Counted, Owned, Living, Associations, Fades, Linked;
  }

  lemma Retiring(objects: seq<Object>, i: Id)
    requires i < |objects| && objects[i].Identity? && !objects[i].retired
    ensures !Alive(Retired(objects[i]))
    ensures Fades(objects, objects[i := Retired(objects[i])])
    ensures Living(objects[i := Retired(objects[i])]) < Living(objects)
    ensures Associations(objects[i := Retired(objects[i])]) + (if objects[i].gradient.Some? then 1 else 0)
         == Associations(objects)
  {
    UpdateFades(objects, i, Retired(objects[i]));
    AssociationsUpdate(objects, i, Retired(objects[i]));
    hide Living, Associations, Fades;
  }

  /** A parameter of a registered optimizer, or a gradient captured in one of its scopes. */
  datatype Occurrence = Occurrence(registration: nat, scope: nat, identity: Id)

  datatype Choice = OfScope(scope: nat) | OfRegistration(registration: nat)

  predicate IsChosen(o: Occurrence, c: Choice) {
    if c.OfScope? then o.scope == c.scope else o.registration == c.registration
  }

  function Identities(s: seq<Occurrence>): seq<Id> {
    if s == [] then [] else Identities(s[..|s| - 1]) + [s[|s| - 1].identity]
  }

  function Only(s: seq<Occurrence>, c: Choice): seq<Occurrence> {
    if s == [] then [] else Only(s[..|s| - 1], c) + if IsChosen(s[|s| - 1], c) then [s[|s| - 1]] else []
  }

  function Without(s: seq<Occurrence>, c: Choice): seq<Occurrence> {
    if s == [] then [] else Without(s[..|s| - 1], c) + if IsChosen(s[|s| - 1], c) then [] else [s[|s| - 1]]
  }

  function Occurrences(registration: nat, parameters: seq<Id>): seq<Occurrence> {
    if parameters == [] then []
    else Occurrences(registration, parameters[..|parameters| - 1])
         + [Occurrence(registration, 0, parameters[|parameters| - 1])]
  }

  predicate RegisteredIn(optimizers: seq<Occurrence>, registration: nat) {
    exists i :: 0 <= i < |optimizers| && optimizers[i].registration == registration
  }

  /** Only registered optimizers have captured something. */
  predicate Registered(optimizers: seq<Occurrence>, captures: seq<Occurrence>) {
    forall i :: 0 <= i < |captures| ==> RegisteredIn(optimizers, captures[i].registration)
  }

  lemma {:induction false} WithoutSplits(s: seq<Occurrence>, c: Choice)
    ensures multiset(Identities(s)) == multiset(Identities(Without(s, c))) + multiset(Identities(Only(s, c)))
  {
    if s != [] {
      var last := |s| - 1;
      WithoutSplits(s[..last], c);
      IdentitiesAppend(Without(s[..last], c), s[last]);
      IdentitiesAppend(Only(s[..last], c), s[last]);
    }
    hide IsChosen;
  }

  lemma IdentitiesAppend(s: seq<Occurrence>, o: Occurrence)
    ensures Identities(s + [o]) == Identities(s) + [o.identity] && Identities(s + []) == Identities(s)
  {
    assert (s + [o])[..|s|] == s && s + [] == s;
  }

  lemma {:induction false} InWithout(s: seq<Occurrence>, c: Choice, o: Occurrence)
    ensures o in Without(s, c) <==> o in s && !IsChosen(o, c)
    ensures |Without(s, c)| <= |s| && (s != [] && IsChosen(s[0], c) ==> |Without(s, c)| < |s|)
  {
    if s != [] {
      InWithout(s[..|s| - 1], c, o);
      assert s == s[..|s| - 1] + [s[|s| - 1]];
    }
    hide IsChosen;
  }

  lemma WithoutFewer(s: seq<Occurrence>, registration: nat)
    requires s != [] && s[0].registration == registration
    ensures |Without(s, OfRegistration(registration))| < |s|
  {
    InWithout(s, OfRegistration(registration), s[0]);
  }

  lemma RegisteredFewer(optimizers: seq<Occurrence>, captures: seq<Occurrence>, c: Choice)
    requires Registered(optimizers, captures)
    ensures Registered(optimizers, Without(captures, c))
  {
    hide RegisteredIn;
    var fewer := Without(captures, c);
    forall i | 0 <= i < |fewer| ensures RegisteredIn(optimizers, fewer[i].registration) {
      InWithout(captures, c, fewer[i]);
    }
  }

  /** Once its captures are gone an optimizer can go. */
  lemma RegisteredStill(optimizers: seq<Occurrence>, captures: seq<Occurrence>, registration: nat)
    requires Registered(optimizers, captures)
    ensures var c := OfRegistration(registration);
            Registered(Without(optimizers, c), Without(captures, c))
  {
    var c := OfRegistration(registration);
    var fewer := Without(captures, c);
    forall i | 0 <= i < |fewer| ensures RegisteredIn(Without(optimizers, c), fewer[i].registration) {
      InWithout(captures, c, fewer[i]);
      var k :| 0 <= k < |captures| && captures[k] == fewer[i];
      assert RegisteredIn(optimizers, captures[k].registration);
      var j :| 0 <= j < |optimizers| && optimizers[j].registration == captures[k].registration;
      InWithout(optimizers, c, optimizers[j]);
    }
    hide Without;
  }

  lemma NoneRegistered(optimizers: seq<Occurrence>, captures: seq<Occurrence>)
    requires Registered(optimizers, captures) && optimizers == []
    ensures captures == []
  {
    assert captures != [] ==> RegisteredIn(optimizers, captures[0].registration);
  }

  lemma RegisteredMore(optimizers: seq<Occurrence>, captures: seq<Occurrence>, o: Occurrence)
    requires Registered(optimizers, captures)
    ensures Registered(optimizers + [o], captures)
    ensures RegisteredIn(optimizers, o.registration) ==> Registered(optimizers, captures + [o])
  {
    forall i | 0 <= i < |captures| ensures RegisteredIn(optimizers + [o], captures[i].registration) {
      assert RegisteredIn(optimizers, captures[i].registration);
      var j :| 0 <= j < |optimizers| && optimizers[j].registration == captures[i].registration;
      assert (optimizers + [o])[j] == optimizers[j];
    }
  }

  lemma IdentitiesNone()
    ensures Identities([]) == []
  {
  }

  lemma OccurrencesNext(registration: nat, parameters: seq<Id>, p: nat)
    requires p < |parameters|
    ensures Occurrences(registration, parameters[..p + 1])
         == Occurrences(registration, parameters[..p]) + [Occurrence(registration, 0, parameters[p])]
    ensures Occurrences(registration, []) == []
  {
    assert parameters[..p + 1][..p] == parameters[..p];
  }

  class TensorSession {
    var objects: seq<Object>
    var states: seq<Id>
    var optimizers: seq<Occurrence>
    var captures: seq<Occurrence>
    var retirementQueue: seq<Id>
    var retiring: bool
    var associationOwners: nat
    var collectionScheduled: bool
    var closed: bool

    /** Exposed handles, optimizer occurrences and captured gradients. */
    ghost function Roots(): multiset<Id>
      reads `states, `optimizers, `captures
    {
      multiset(states) + multiset(Identities(optimizers)) + multiset(Identities(captures))
    }

    function RootList(): seq<Id>
      reads `states, `optimizers, `captures
    {
      states + Identities(optimizers) + Identities(captures)
    }

    /** With references still to be given up. */
    ghost predicate Consistent(debts: multiset<Id>)
      reads `objects, `states, `optimizers, `captures, `retirementQueue, `retiring, `associationOwners
    {
      && Counted(objects, Roots() + debts) && Queued(objects, retirementQueue)
      && associationOwners == Associations(objects)
      && (!retiring ==> retirementQueue == [])
    }

    method ReleaseIdentity(i: Id, ghost debts: multiset<Id>)
      requires Consistent(debts + multiset{i}) && i < |objects| && objects[i].Identity?
      modifies `objects, `retirementQueue, `retiring, `associationOwners
      ensures Consistent(debts) && retiring == old(retiring)
      ensures Fades(old(objects), objects) && Living(objects) <= Living(old(objects))
      ensures retiring ==>
                objects == Lost(old(objects), Some(i))
                && retirementQueue == old(retirementQueue) + Freed(old(objects), Some(i))
      decreases if retiring then 0 else 3, 0
    {
      hide Counted, Queued, Associations, Fades, Living, Alive, Identities;
      ghost var before, external := objects, Roots() + (debts + multiset{i});
      NotRetired(objects, external, i);
      if !objects[i].retired {
        Dropping(objects, i, external);
        Drop(objects, external, i);
        DropQueued(objects, retirementQueue, i);
        assert external - multiset{i} + multiset{} == Roots() + debts;
        objects := objects[i := Dropped(objects[i])];
        LivingFewer(before, objects);
        if objects[i].references == 0 {
          retirementQueue := retirementQueue + [i];
          if !retiring {
            ghost var dropped := objects;
            retiring := true;
            RetireAll(debts);
            FadesMore(before, dropped, objects);
            retiring := false;
          }
        }
      }
    }

    method RetireAll(ghost debts: multiset<Id>)
      requires Consistent(debts) && retiring
      modifies `objects, `retirementQueue, `retiring, `associationOwners
      ensures retiring && Consistent(debts) && retirementQueue == []
      ensures Fades(old(objects), objects) && Living(objects) <= Living(old(objects))
      decreases 2, 1
    {
      hide Counted, Queued, Associations, Fades, Living, Alive, Linked, Identities;
      FadesSelf(objects);
      while retirementQueue != []
        invariant retiring && Consistent(debts)
        invariant Fades(old(objects), objects) && Living(objects) <= Living(old(objects))
        decreases Living(objects), |retirementQueue|
      {
        ghost var before := objects;
        var current := retirementQueue[|retirementQueue| - 1];
        QueuedParts(objects, retirementQueue, current);
        assert retirementQueue == retirementQueue[..|retirementQueue| - 1] + [current];
        retirementQueue := retirementQueue[..|retirementQueue| - 1];
        if objects[current].retired {
          SkipQueued(objects, retirementQueue, current);
        } else {
          var _ := RetireOne(current, debts);
          FadesMore(old(objects), before, objects);
        }
      }
    }

    /**
     * Retires an identity that nobody refers to, and gives up what it owned. Whatever
     * this frees goes to the end of the queue, the first freed last: it is retired next.
     */
    method RetireOne(current: Id, ghost debts: multiset<Id>) returns (ghost children: seq<Id>)
      requires Counted(objects, Roots() + debts) && Queued(objects, retirementQueue + [current]) && retiring
      requires associationOwners == Associations(objects)
      requires current < |objects| && objects[current].Identity? && !objects[current].retired
      requires objects[current].references == 0
      modifies `objects, `retirementQueue, `retiring, `associationOwners
      ensures retiring && Consistent(debts) && Fades(old(objects), objects) && Living(objects) < Living(old(objects))
      ensures !Alive(objects[current]) && retirementQueue == old(retirementQueue) + Reverse(children)
      ensures FirstFreed(old(objects), current) <= children
      ensures OwnedEntry(old(objects)[current]).None? ==> children == FirstFreed(old(objects), current)
      decreases 2, 0
    {
      hide Counted, Queued, Associations, Fades, Living, Alive, Linked, Held, One, Reverse, IsIdentity, Identities,
           Freed, Lost;
      var offset := |retirementQueue|;
      var identity := objects[current];
      HeldParts(objects, Roots() + debts, current);
      Retire(objects, Roots() + debts, current);
      RetireQueued(objects, retirementQueue, current);
      Retiring(objects, current);
      objects := objects[current := Retired(identity)];
      ghost var first := objects;
      Regroup(Roots(), debts, One(identity.base), One(OwnedEntry(identity)), One(identity.gradient));
      StillLinks(old(objects), first, identity);
      if identity.gradient.Some? {
        associationOwners := associationOwners - 1;
      }
      children := ReleaseOwned(identity, debts);
      StaysDead(first, objects, current);
      FadesMore(old(objects), first, objects);
      ReversedQueued(objects, retirementQueue, offset);
      assert retirementQueue[offset..] == children;
      retirementQueue := retirementQueue[..offset] + Reverse(retirementQueue[offset..]);
    }

    /** Gives up the gradient, the base and the history of an identity, and says what this frees, in order. */
    method ReleaseOwned(identity: Object, ghost debts: multiset<Id>) returns (ghost children: seq<Id>)
      requires identity.Identity? && Linked(objects, identity) && retiring
      requires Consistent(debts + One(identity.base) + One(OwnedEntry(identity)) + One(identity.gradient))
      modifies `objects, `retirementQueue, `retiring, `associationOwners
      ensures retiring && Consistent(debts) && Fades(old(objects), objects) && Living(objects) <= Living(old(objects))
      ensures retirementQueue == old(retirementQueue) + children
      ensures var freed := Freed(old(objects), identity.gradient)
                           + Freed(Lost(old(objects), identity.gradient), identity.base);
              freed <= children && (OwnedEntry(identity).None? ==> children == freed)
      decreases 1, 3
    {
      hide Counted, Queued, Associations, Fades, Living, Alive, Linked, Held, One, IsIdentity, Identities, Freed, Lost,
           Consistent, Roots;
      var owned := OwnedEntry(identity);
      FadesSelf(objects);
      StillLinks(objects, objects, identity);
      ghost var waiting := retirementQueue;
      ReleasePresent(identity.gradient, debts + One(identity.base) + One(owned));
      ghost var second := objects;
      StillLinks(old(objects), second, identity);
      assert debts + One(identity.base) + One(owned) == debts + One(owned) + One(identity.base);
      ReleasePresent(identity.base, debts + One(owned));
      ghost var third := objects;
      StillLinks(second, third, identity);
      ReleaseEntry(owned, debts);
      FadesMore(old(objects), second, third);
      FadesMore(old(objects), third, objects);
      children := retirementQueue[|waiting|..];
    }

    method ReleasePresent(id: Option<Id>, ghost debts: multiset<Id>)
      requires Consistent(debts + One(id)) && IsIdentity(objects, id)
      modifies `objects, `retirementQueue, `retiring, `associationOwners
      ensures Consistent(debts) && retiring == old(retiring)
      ensures Fades(old(objects), objects) && Living(objects) <= Living(old(objects))
      ensures retiring ==>
                objects == Lost(old(objects), id) && retirementQueue == old(retirementQueue) + Freed(old(objects), id)
      decreases if retiring then 0 else 3, 1
    {
      hide Counted, Queued, Associations, Fades, Living, Identities;
      if id.Some? {
        ReleaseIdentity(id.value, debts);
      } else {
        assert debts + One(id) == debts;
        FadesSelf(objects);
      }
    }

    method ReleaseEntry(id: Option<Id>, ghost debts: multiset<Id>)
      requires Consistent(debts + One(id)) && IsNode(objects, id)
      modifies `objects, `retirementQueue, `retiring, `associationOwners
      ensures Consistent(debts) && retiring == old(retiring)
      ensures Fades(old(objects), objects) && Living(objects) <= Living(old(objects))
      ensures retiring ==> old(retirementQueue) <= retirementQueue
      ensures id.None? ==> retirementQueue == old(retirementQueue)
      decreases if retiring then 1 else 4, 2
    {
      hide Counted, Queued, Associations, Fades, Living, Identities;
      if id.Some? {
        ReleaseHistory(id.value, debts);
      } else {
        assert debts + One(id) == debts;
        FadesSelf(objects);
      }
    }

    method ReleaseHistory(n: Id, ghost debts: multiset<Id>)
      requires Consistent(debts + multiset{n}) && n < |objects| && objects[n].HistoryNode?
      modifies `objects, `retirementQueue, `retiring, `associationOwners
      ensures Consistent(debts) && retiring == old(retiring)
      ensures Fades(old(objects), objects) && Living(objects) <= Living(old(objects))
      ensures retiring ==> old(retirementQueue) <= retirementQueue
      decreases if retiring then 1 else 4, 1
    {
      hide Counted, Queued, Associations, Fades, Living, Alive, Linked, Held, Identities;
      FadesSelf(objects);
      var pending := [n];
      while pending != []
        invariant Consistent(debts + multiset(pending)) && retiring == old(retiring)
        invariant AllNodes(objects, pending)
        invariant Fades(old(objects), objects) && Living(objects) <= Living(old(objects))
        invariant retiring ==> old(retirementQueue) <= retirementQueue
        decreases Living(objects), |pending|
      {
        ghost var before := objects;
        var current := pending[|pending| - 1];
        assert pending == pending[..|pending| - 1] + [current];
        pending := pending[..|pending| - 1];
        pending := ReleaseNode(current, pending, debts);
        FadesMore(old(objects), before, objects);
      }
      assert debts + multiset(pending) == debts;
    }

    /** Gives up one reference to a node, and with the last one its leaf, leaving its inputs to be given up. */
    method ReleaseNode(current: Id, pending: seq<Id>, ghost debts: multiset<Id>) returns (more: seq<Id>)
      requires Consistent(debts + multiset(pending + [current])) && AllNodes(objects, pending + [current])
      modifies `objects, `retirementQueue, `retiring, `associationOwners
      ensures Consistent(debts + multiset(more)) && retiring == old(retiring) && AllNodes(objects, more)
      ensures Fades(old(objects), objects)
      ensures Living(objects) < Living(old(objects)) || (Living(objects) <= Living(old(objects)) && more == pending)
      ensures retiring ==> old(retirementQueue) <= retirementQueue
      decreases if retiring then 1 else 4, 0
    {
      hide Counted, Queued, Associations, Fades, Living, Alive, Linked, Held, Identities, Present, AllNodes, IsIdentity,
           One;
      DroppingNode(objects, retirementQueue, Roots(), debts, pending, current);
      var node := objects[current];
      objects := objects[current := Dropped(node)];
      ghost var dropped := objects;
      more := pending;
      if objects[current].references == 0 {
        more := pending + Present(node.inputs);
        ReleasePresent(node.leafOwner, debts + multiset(more));
        FadesMore(old(objects), dropped, objects);
      }
      NodesRemain(old(objects), objects, more);
    }

    /** The references owed aside, nothing is being retired and every root is an identity that is there. */
    ghost predicate Settled(debts: multiset<Id>)
      reads this
    {
      && Consistent(debts) && !retiring && AllIdentities(objects, Roots()) && Layered(objects)
      && Registered(optimizers, captures)
    }

    /** Between operations. */
    ghost predicate Valid()
      reads this
    {
      Settled(multiset{})
    }

    constructor ()
      ensures Valid() && objects == [] && Roots() == multiset{} && !closed
    {
      objects, states, optimizers, captures, retirementQueue := [], [], [], [], [];
      retiring, associationOwners, collectionScheduled, closed := false, 0, false, false;
    }

    method ScheduleCollection()
      modifies `collectionScheduled
      ensures collectionScheduled == (old(collectionScheduled) || associationOwners != 0)
    {
      if associationOwners == 0 || collectionScheduled {
        return;
      }
      collectionScheduled := true;
    }

    /** Another exposed handle of an identity. */
    method NewHandle(i: Id)
      requires Valid() && i < |objects| && objects[i].Identity? && !objects[i].retired
      modifies `objects, `states
      ensures Valid() && states == old(states) + [i]
      ensures objects == old(objects)[i := Retained(old(objects)[i])]
    {
      hide Counted, Associations, Queued, Layered, Registered, Identities, AllIdentities;
      Retain(objects, retirementQueue, Roots() + multiset{}, i);
      RetainedKeeps(objects, i);
      objects := objects[i := Retained(objects[i])];
      StatesWith(states, multiset(Identities(optimizers)), multiset(Identities(captures)), i);
      KindsRemain(old(objects), objects, Roots());
      IdentitiesMore(objects, Roots(), i);
      states := states + [i];
    }

    /**
     * Exposes an identity: by its canonical handle, if the weak reference still
     * leads to it and it is open, and otherwise by another one.
     */
    method Expose(i: Id, canonical: bool, held: bool)
      requires Valid() && i < |objects| && objects[i].Identity? && !objects[i].retired && (held ==> i in states)
      modifies `objects, `states
      ensures Valid() && i in states
      ensures if canonical && held then states == old(states) && objects == old(objects)
              else states == old(states) + [i] && objects == old(objects)[i := Retained(old(objects)[i])]
    {
      if !(canonical && held) {
        NewHandle(i);
      }
    }

    /**
     * A new identity and its first handle. It owns the base that it is a view of
     * and, unless it is a leaf, takes over the construction reference of its history.
     */
    method Create(base: Option<Id>, entry: Option<Id>, trueLeaf: bool) returns (i: Id)
      requires Settled(One(entry)) && (trueLeaf ==> base.None? && entry.None?)
      requires IsIdentity(objects, base) && (base.Some? ==> !objects[base.value].retired) && IsNode(objects, entry)
      modifies `objects, `states
      ensures Valid() && i == |old(objects)| && |objects| == i + 1 && states == old(states) + [i]
      ensures objects[i] == Identity(1, false, None, base, entry, trueLeaf) && Grows(old(objects), objects[..i])
    {
      hide *;
      i := Make(base, entry, trueLeaf);
      AddHandle(i);
    }

    /** A reference that is there becomes that of a handle. */
    method AddHandle(i: Id)
      requires Settled(multiset{i}) && i < |objects| && objects[i].Identity?
      modifies `states
      ensures Valid() && states == old(states) + [i]
    {
      hide Counted, Associations, Queued, AllIdentities, Layered, Registered, Identities;
      StatesWith(states, multiset(Identities(optimizers)), multiset(Identities(captures)), i);
      IdentitiesMore(objects, Roots(), i);
      states := states + [i];
    }

    /** The identity alone, whose first reference is to become a handle. */
    method Make(base: Option<Id>, entry: Option<Id>, trueLeaf: bool) returns (i: Id)
      requires Settled(One(entry)) && (trueLeaf ==> base.None? && entry.None?)
      requires IsIdentity(objects, base) && (base.Some? ==> !objects[base.value].retired) && IsNode(objects, entry)
      modifies `objects
      ensures Settled(multiset{i}) && i == |old(objects)| && |objects| == i + 1
      ensures objects[i] == Identity(1, false, None, base, entry, trueLeaf) && Grows(old(objects), objects[..i])
    {
      hide Counted, Associations, Queued, IsNode, IsIdentity, AllIdentities, SameKinds, Layered, Registered, Identities;
      hide Grows, WithBase, One;
      i := |objects|;
      var o := Identity(1, false, None, base, entry, trueLeaf);
      Creating(objects, retirementQueue, Roots(), base, entry, o);
      CreatedKeeps(objects, base, o);
      RetainBase(base);
      objects := objects + [o];
      KindsRemain(old(objects), objects, Roots());
    }

    method RetainBase(base: Option<Id>)
      requires IsIdentity(objects, base)
      modifies `objects
      ensures objects == WithBase(old(objects), base)
    {
      if base.Some? {
        objects := objects[base.value := Retained(objects[base.value])];
      }
    }

    /** The history node that a leaf ends at. Nobody owns it before it is an input. */
    method Leaf(owner: Id) returns (n: Id)
      requires Valid() && owner < |objects| && objects[owner].Identity? && !objects[owner].retired
      requires objects[owner].trueLeaf && objects[owner].entry.None?
      modifies `objects
      ensures Valid() && n == |old(objects)|
      ensures objects == old(objects)[owner := old(objects)[owner].(entry := Some(n))]
                         + [HistoryNode(0, [], Some(owner))]
    {
      hide Counted, Associations, Queued, AllIdentities, Layered, Registered, Identities;
      n := |objects|;
      var node := HistoryNode(0, [], Some(owner));
      Ending(objects, retirementQueue, Roots() + multiset{}, owner);
      LayeredAppend(objects, node);
      objects := objects + [node];
      WanesKeeps(objects, owner, objects[owner].(entry := Some(n)));
      objects := objects[owner := objects[owner].(entry := Some(n))];
      KindsRemain(old(objects), objects, Roots());
    }

    /** Records a history node over inputs, with a construction reference. */
    method Record(inputs: seq<Option<Id>>) returns (n: Id)
      requires Valid() && forall p :: 0 <= p < |inputs| ==> Recordable(objects, inputs[p])
      modifies `objects
      ensures Settled(multiset{n}) && n == |old(objects)| && |objects| == n + 1
      ensures objects[n] == HistoryNode(1, inputs, None) && Grows(old(objects), objects[..n])
    {
      hide Counted, Associations, Queued, AllIdentities, Recordable, SameKinds, Present, All, Layered, Registered,
           Identities, Grows;
      GrowsSelf(objects);
      PresentNone(inputs);
      assert Roots() + multiset{} == Roots() + multiset(Present(inputs[..0]));
      for p := 0 to |inputs|
        invariant Counted(objects, Roots() + multiset(Present(inputs[..p]))) && Queued(objects, [])
        invariant associationOwners == Associations(objects) && Grows(old(objects), objects)
        invariant |objects| == |old(objects)|
        invariant forall q :: 0 <= q < |inputs| ==> Recordable(objects, inputs[q])
      {
        PresentNext(inputs, p);
        assert Roots() + multiset(Present(inputs[..p + 1]))
          == Roots() + multiset(Present(inputs[..p])) + One(inputs[p]);
        assert Roots() + multiset(Present(inputs[..p])) + One(None) == Roots() + multiset(Present(inputs[..p]));
        if inputs[p].Some? {
          ghost var before := objects;
          Adopt(Roots() + multiset(Present(inputs[..p])), inputs[p].value);
          forall q | 0 <= q < |inputs| ensures Recordable(objects, inputs[q]) {
            StillRecordable(before, objects, inputs[q]);
          }
          GrowsMore(old(objects), before, objects);
        }
      }
      assert inputs[..|inputs|] == inputs;
      n := |objects|;
      Recording(objects, Roots(), inputs);
      RecordedKeeps(old(objects), objects, inputs);
      objects := objects + [HistoryNode(1, inputs, None)];
      assert objects[..n] == objects[..|objects| - 1];
      KindsRemain(old(objects), objects, Roots());
    }

    /** A node becomes an input; its first use owns the leaf that it ends at. */
    method Adopt(ghost external: multiset<Id>, input: Id)
      requires Counted(objects, external) && Queued(objects, []) && associationOwners == Associations(objects)
      requires Recordable(objects, Some(input))
      modifies `objects
      ensures Counted(objects, external + multiset{input}) && Queued(objects, [])
      ensures associationOwners == Associations(objects) && Grows(old(objects), objects)
    {
      hide Counted, Associations, Queued;
      Adopting(objects, external, input);
      if objects[input].references == 0 && objects[input].leafOwner.Some? {
        var owner := objects[input].leafOwner.value;
        objects := objects[owner := Retained(objects[owner])];
      }
      objects := objects[input := Retained(objects[input])];
    }

    /**
     * An identity gets another history, whose construction reference it takes over,
     * or none, and gives up the one before.
     */
    method ReplaceEntry(owner: Id, successor: Option<Id>)
      requires Settled(One(successor)) && IsNode(objects, successor)
      requires owner < |objects| && objects[owner].Identity? && !objects[owner].retired && !objects[owner].trueLeaf
      modifies `objects, `retirementQueue, `retiring, `associationOwners
      ensures Valid() && Fades(old(objects)[owner := old(objects)[owner].(entry := successor)], objects)
      ensures Preserved(old(objects)[owner := old(objects)[owner].(entry := successor)], objects, Roots())
    {
      hide Counted, Associations, Queued, Fades, Living, SameEdges, AllIdentities, SameKinds, Linked, Layered,
           Registered, Identities, Preserved, One;
      var previous := objects[owner].entry;
      EntryReplaced(objects, Roots(), owner, successor);
      Rerouting(objects, retirementQueue, Roots(), owner, successor);
      WanesKeeps(objects, owner, objects[owner].(entry := successor));
      objects := objects[owner := objects[owner].(entry := successor)];
      ghost var replaced := objects;
      KindsRemain(old(objects), objects, Roots());
      ReleaseEntry(previous, multiset{});
      IdentitiesRemain(replaced, objects, Roots());
      FadesLayered(replaced, objects);
      assert Roots() + multiset{} == Roots();
      StillReached(replaced, objects, Roots());
    }

    /** An optimizer takes a reference to each of its parameters, once for every occurrence. */
    method RegisterOptimizer(registration: nat, parameters: seq<Id>)
      requires Valid() && forall p :: 0 <= p < |parameters| ==> Exposed(objects, parameters[p])
      modifies `objects, `optimizers
      ensures Valid() && Grows(old(objects), objects)
      ensures optimizers == old(optimizers) + Occurrences(registration, parameters)
    {
      hide Counted, Associations, Queued, AllIdentities, Exposed, Layered, Registered, Identities, Grows;
      GrowsSelf(objects);
      assert parameters[..0] == [] && Occurrences(registration, []) == [] && optimizers + [] == optimizers;
      for p := 0 to |parameters|
        invariant Valid() && Grows(old(objects), objects)
        invariant optimizers == old(optimizers) + Occurrences(registration, parameters[..p])
        invariant forall q :: 0 <= q < |parameters| ==> Exposed(objects, parameters[q])
      {
        ghost var before := objects;
        ExposedParts(objects, parameters[p]);
        AddOccurrence(registration, parameters[p]);
        GrowsMore(old(objects), before, objects);
        OccurrencesNext(registration, parameters, p);
        forall q | 0 <= q < |parameters| ensures Exposed(objects, parameters[q]) {
          StillExposed(before, objects, parameters[q]);
        }
      }
      assert parameters[..|parameters|] == parameters;
    }

    method AddOccurrence(registration: nat, parameter: Id)
      requires Valid() && parameter < |objects| && objects[parameter].Identity? && !objects[parameter].retired
      modifies `objects, `optimizers
      ensures Valid() && Grows(old(objects), objects)
      ensures optimizers == old(optimizers) + [Occurrence(registration, 0, parameter)]
    {
      hide Counted, Associations, Queued, AllIdentities, Layered, Registered, Identities, Grows;
      var o := Occurrence(registration, 0, parameter);
      Retain(objects, retirementQueue, Roots() + multiset{}, parameter);
      RetainedKeeps(objects, parameter);
      objects := objects[parameter := Retained(objects[parameter])];
      IdentitiesAppend(optimizers, o);
      RegisteredMore(optimizers, captures, o);
      WithMiddle(multiset(states), multiset(Identities(optimizers)), multiset(Identities(captures)), parameter);
      KindsRemain(old(objects), objects, Roots());
      IdentitiesMore(objects, Roots(), parameter);
      optimizers := optimizers + [o];
    }

    /** Within a scope of a registered optimizer the present gradient of a parameter is captured, if there is one. */
    method CaptureGradient(registration: nat, scope: nat, parameter: Id) returns (captured: bool)
      requires Valid() && parameter < |objects| && objects[parameter].Identity? && !objects[parameter].retired
      requires RegisteredIn(optimizers, registration)
      modifies `objects, `captures
      ensures Valid() && Grows(old(objects), objects) && captured == objects[parameter].gradient.Some?
      ensures captures == old(captures)
                          + if captured then [Occurrence(registration, scope, objects[parameter].gradient.value)]
                            else []
    {
      hide Counted, Associations, Queued, AllIdentities, Layered, Registered, RegisteredIn, Identities, Grows;
      captured := objects[parameter].gradient.Some?;
      GrowsSelf(objects);
      if captured {
        var gradient := objects[parameter].gradient.value;
        GradientAlive(objects, Roots() + multiset{}, parameter);
        Retain(objects, retirementQueue, Roots() + multiset{}, gradient);
        RetainedKeeps(objects, gradient);
        objects := objects[gradient := Retained(objects[gradient])];
        var o := Occurrence(registration, scope, gradient);
        IdentitiesAppend(captures, o);
        RegisteredMore(optimizers, captures, o);
        WithLast(multiset(states), multiset(Identities(optimizers)), multiset(Identities(captures)), gradient);
        KindsRemain(old(objects), objects, Roots());
        IdentitiesMore(objects, Roots(), gradient);
        captures := captures + [o];
      }
    }

    /** Gives up references that have left the roots, in order. */
    method ReleaseAll(released: seq<Id>)
      requires Consistent(multiset(released)) && !retiring && AllIdentities(objects, multiset(released))
      modifies `objects, `retirementQueue, `retiring, `associationOwners
      ensures Consistent(multiset{}) && !retiring && Fades(old(objects), objects)
    {
      hide Counted, Queued, Associations, Fades, Living, Alive, AllIdentities, Identities;
      FadesSelf(objects);
      var i := 0;
      assert released[0..] == released && multiset{} + multiset(released) == multiset(released);
      while i < |released|
        invariant i <= |released| && Consistent(multiset(released[i..])) && !retiring
        invariant Fades(old(objects), objects) && AllIdentities(objects, multiset(released))
      {
        ghost var earlier := objects;
        assert released[i..] == [released[i]] + released[i + 1..];
        assert multiset(released[i..]) == multiset(released[i + 1..]) + multiset{released[i]};
        IsAmong(objects, released, i);
        ReleaseIdentity(released[i], multiset(released[i + 1..]));
        FadesMore(old(objects), earlier, objects);
        IdentitiesRemain(earlier, objects, multiset(released));
        i := i + 1;
      }
      assert released[i..] == [] && multiset(released[i..]) == multiset{};
    }

    /** A capture scope ends. */
    method RetireCapture(scope: nat)
      requires Valid()
      modifies `objects, `captures, `retirementQueue, `retiring, `associationOwners, `collectionScheduled
      ensures Valid() && Fades(old(objects), objects) && Preserved(old(objects), objects, Roots())
      ensures captures == Without(old(captures), OfScope(scope))
      ensures associationOwners != 0 ==> collectionScheduled
    {
      hide Counted, Associations, Queued, AllIdentities, Layered, Registered, Identities, Without, Fades, Preserved;
      RetireCaptures(OfScope(scope));
      ScheduleCollection();
    }

    method RetireCaptures(chosen: Choice)
      requires Valid()
      modifies `objects, `captures, `retirementQueue, `retiring, `associationOwners
      ensures Valid() && Fades(old(objects), objects) && Preserved(old(objects), objects, Roots())
      ensures captures == Without(old(captures), chosen)
    {
      hide Counted, Associations, Queued, AllIdentities, Layered, Registered, Identities, Without, Only, Fades,
           Preserved;
      var released := Identities(Only(captures, chosen));
      WithoutSplits(captures, chosen);
      RegisteredFewer(optimizers, captures, chosen);
      LessLast(multiset(states), multiset(Identities(optimizers)), multiset(Identities(captures)),
               multiset(Identities(Without(captures, chosen))), multiset(released));
      IdentitiesFewer(objects, Roots(), multiset(states) + multiset(Identities(optimizers))
                                        + multiset(Identities(Without(captures, chosen))), multiset(released));
      captures := Without(captures, chosen);
      ReleaseAll(released);
      AfterRelease(old(objects), objects, Roots());
    }

    /** An optimizer is closed: what its scopes captured and its own occurrences are given up. */
    method RetireOptimizer(registration: nat)
      requires Valid()
      modifies `objects, `optimizers, `captures, `retirementQueue, `retiring, `associationOwners, `collectionScheduled
      ensures Valid() && Fades(old(objects), objects) && Preserved(old(objects), objects, Roots())
      ensures optimizers == Without(old(optimizers), OfRegistration(registration))
      ensures captures == Without(old(captures), OfRegistration(registration))
      ensures associationOwners != 0 ==> collectionScheduled
    {
      hide Counted, Associations, Queued, AllIdentities, Layered, Registered, Identities, Without, Only, Fades,
           Preserved;
      var chosen := OfRegistration(registration);
      RetireCaptures(chosen);
      ghost var middle := objects;
      var released := Identities(Only(optimizers, chosen));
      WithoutSplits(optimizers, chosen);
      RegisteredStill(optimizers, old(captures), registration);
      LessMiddle(multiset(states), multiset(Identities(optimizers)), multiset(Identities(captures)),
                 multiset(Identities(Without(optimizers, chosen))), multiset(released));
      IdentitiesFewer(objects, Roots(), multiset(states) + multiset(Identities(Without(optimizers, chosen)))
                                        + multiset(Identities(captures)), multiset(released));
      optimizers := Without(optimizers, chosen);
      ReleaseAll(released);
      FadesMore(old(objects), middle, objects);
      AfterRelease(middle, objects, Roots());
      assert Roots() + multiset{} == Roots();
      StillReached(old(objects), objects, Roots());
      ScheduleCollection();
    }

    /** A handle is closed. */
    method ReleaseHandle(s: nat)
      requires Valid() && s < |states|
      modifies `objects, `states, `retirementQueue, `retiring, `associationOwners, `collectionScheduled
      ensures Valid() && Fades(old(objects), objects)
      ensures states == old(states)[..s] + old(states)[s + 1..]
      ensures Preserved(old(objects), objects, Roots())
      ensures associationOwners != 0 ==> collectionScheduled
    {
      hide Counted, Associations, Queued, Fades, Living, Preserved, Layered, Registered, Identities, AllIdentities;
      var i := states[s];
      StatesWithout(states, multiset(Identities(optimizers)), multiset(Identities(captures)), s);
      IdentitiesFewer(objects, Roots(), multiset(states[..s] + states[s + 1..]) + multiset(Identities(optimizers))
                                        + multiset(Identities(captures)), multiset{i});
      states := states[..s] + states[s + 1..];
      IsThere(objects, i);
      ReleaseIdentity(i, multiset{});
      AfterRelease(old(objects), objects, Roots());
      ScheduleCollection();
    }

    /** Keeps another gradient, or none, for an identity; what is still reached then stays whole. */
    method ReplaceGradient(owner: Id, successor: Option<Id>)
      requires Valid() && owner < |objects| && objects[owner].Identity? && !objects[owner].retired
      requires successor.Some? ==> Exposed(objects, successor.value)
      modifies `objects, `retirementQueue, `retiring, `associationOwners, `collectionScheduled
      ensures Valid() && Fades(Reassigned(old(objects), owner, successor), objects)
      ensures Preserved(Reassigned(old(objects), owner, successor), objects, Roots())
      ensures old(objects)[owner].gradient.Some? && old(objects)[owner].gradient != successor
              && associationOwners != 0 ==>
                collectionScheduled
    {
      hide Counted, Associations, Queued, Fades, Living, SameEdges, AllIdentities, Linked, Layered, Registered,
           Identities, Preserved, Reassigned, Exposed, One, IsIdentity;
      var previous := objects[owner].gradient;
      FadesSelf(objects);
      if previous == successor {
        SameGradient(objects, owner);
        AfterRelease(objects, objects, Roots());
        return;
      }
      ReassignedKeeps(objects, Roots(), owner, successor);
      AssignGradient(owner, successor);
      ghost var replaced := objects;
      ReleasePresent(previous, multiset{});
      AfterRelease(replaced, objects, Roots());
      if previous.Some? {
        ScheduleCollection();
      }
    }

    /** The identity refers to the successor, and a reference to its previous gradient is owed. */
    method AssignGradient(owner: Id, successor: Option<Id>)
      requires Consistent(multiset{}) && !retiring
      requires owner < |objects| && objects[owner].Identity? && !objects[owner].retired
      requires (successor.Some? ==> Exposed(objects, successor.value)) && objects[owner].gradient != successor
      modifies `objects, `associationOwners
      ensures Consistent(multiset{} + One(old(objects)[owner].gradient))
      ensures IsIdentity(objects, old(objects)[owner].gradient)
      ensures objects == Reassigned(old(objects), owner, successor)
    {
      hide Counted, Associations, Queued;
      var previous := objects[owner].gradient;
      Replacing(objects, retirementQueue, Roots(), owner, successor);
      if successor.Some? {
        objects := objects[successor.value := Retained(objects[successor.value])];
        associationOwners := associationOwners + 1;
      }
      objects := objects[owner := objects[owner].(gradient := successor)];
      if previous.Some? {
        associationOwners := associationOwners - 1;
      }
    }

    /** Follows owned references from the exposed handles, the optimizers and the captures. */
    method Mark() returns (live: set<Id>, histories: set<Id>)
      requires Consistent(multiset{})
      ensures forall k: Id :: k in live + histories <==> k < |objects| && Reachable(objects, Roots(), k)
      ensures forall k :: k in live ==> k < |objects| && objects[k].Identity?
      ensures forall k :: k in histories ==> k < |objects| && objects[k].HistoryNode?
    {
      hide Counted, Queued, Associations, Reachable, Held, Marking, Pushed, Identities, Below, Alive;
      live, histories := {}, {};
      var pending := RootList();
      MarkStarts(objects, Roots(), RootList());
      while pending != []
        invariant Marking(objects, Roots(), live + histories, pending)
        invariant forall k :: k in live ==> k < |objects| && objects[k].Identity?
        invariant forall k :: k in histories ==> k < |objects| && objects[k].HistoryNode?
        decreases |Below(|objects|) - (live + histories)|, |pending|
      {
        var owner := pending[|pending| - 1];
        assert pending == pending[..|pending| - 1] + [owner];
        pending := pending[..|pending| - 1];
        MarkTurn(objects, Roots(), live, histories, pending, owner);
        if objects[owner].Identity? {
          if owner !in live && !objects[owner].retired {
            live := live + {owner};
            pending := pending + Pushed(objects[owner]);
          }
        } else if owner !in histories {
          histories := histories + {owner};
          pending := pending + Pushed(objects[owner]);
        }
      }
      forall k: Id ensures k in live + histories <==> k < |objects| && Reachable(objects, Roots(), k) {
        Marked(objects, Roots(), live + histories, k);
      }
    }

    /**
     * A pass, if one is due: breaks the gradient associations of everything that
     * cannot be reached, then gives up the references they were. Exactly what can
     * be reached is left alive.
     */
    method CollectCycles()
      requires Valid()
      modifies `objects, `retirementQueue, `retiring, `associationOwners, `collectionScheduled
      ensures Valid() && !collectionScheduled
      ensures if old(collectionScheduled) || closed then Collected(old(objects), objects, Roots())
              else objects == old(objects)
    {
      hide Counted, Queued, Associations, Reachable, Fades, Living, Alive, CutBelow, Swept, Collected, Layered,
           AllIdentities, Registered, Identities;
      if !collectionScheduled && !closed {
        return;
      }
      collectionScheduled := false;
      ghost var before, roots := objects, Roots();
      assert Roots() + multiset{} == Roots();
      var live, histories := Mark();
      var released := CutUnmarked(live, histories);
      ghost var cut := objects;
      CutKeeps(before, cut, live + histories, roots);
      ReleaseAll(released);
      AfterRelease(cut, objects, roots);
      QueueEmpty(objects, retirementQueue);
      Collects(before, cut, objects, roots, live + histories);
      ExactlyReachable(before, objects, roots);
    }

    method CutUnmarked(live: set<Id>, ghost histories: set<Id>) returns (released: seq<Id>)
      requires Consistent(multiset{}) && !retiring
      requires forall k :: k in histories ==> k < |objects| && objects[k].HistoryNode?
      modifies `objects, `associationOwners
      ensures Consistent(multiset(released)) && AllIdentities(objects, multiset(released))
      ensures CutBelow(old(objects), objects, live + histories, |old(objects)|)
    {
      hide Counted, Queued, Associations, Living, AllIdentities, Identities;
      released := [];
      var i := 0;
      assert multiset{} == multiset(released);
      NoIdentities(objects);
      while i < |objects|
        invariant i <= |objects| == |old(objects)| && Consistent(multiset(released))
        invariant AllIdentities(objects, multiset(released))
        invariant CutBelow(old(objects), objects, live + histories, i)
      {
        var o := objects[i];
        if o.Identity? && !o.retired && i !in live && o.gradient.Some? {
          Cutting(objects, retirementQueue, Roots(), released, i);
          released := released + [o.gradient.value];
          objects := objects[i := o.(gradient := None)];
          associationOwners := associationOwners - 1;
        }
        i := i + 1;
      }
    }

    /** Closing the session leaves nothing alive. */
    method Close()
      requires Valid()
      modifies this
      ensures Valid() && closed && Roots() == multiset{}
      ensures |objects| == |old(objects)| && forall k :: 0 <= k < |objects| ==> !Alive(objects[k])
    {
      hide Counted, Associations, Queued, AllIdentities, Layered, Registered, Fades, Preserved, Alive, Collected,
           Identities, Consistent;
      closed := true;
      RetireOptimizers();
      ReleaseHandles();
      ghost var before := objects;
      IdentitiesNone();
      assert Roots() == multiset{};
      CollectCycles();
      NothingReached(before, objects, Roots());
    }

    method RetireOptimizers()
      requires Valid()
      modifies `objects, `optimizers, `captures, `retirementQueue, `retiring, `associationOwners, `collectionScheduled
      ensures Valid() && |objects| == |old(objects)| && optimizers == [] && captures == []
    {
      hide Counted, Associations, Queued, AllIdentities, Layered, Registered, Identities, Without, Fades, Preserved;
      while optimizers != []
        invariant Valid() && |objects| == |old(objects)|
        decreases |optimizers|
      {
        WithoutFewer(optimizers, optimizers[0].registration);
        ghost var before := objects;
        RetireOptimizer(optimizers[0].registration);
        FadesSize(before, objects);
      }
      NoneRegistered(optimizers, captures);
    }

    method ReleaseHandles()
      requires Valid()
      modifies `objects, `states, `retirementQueue, `retiring, `associationOwners, `collectionScheduled
      ensures Valid() && |objects| == |old(objects)| && states == []
    {
      hide Counted, Associations, Queued, AllIdentities, Layered, Registered, Identities, Fades, Preserved;
      while states != []
        invariant Valid() && |objects| == |old(objects)|
        decreases |states|
      {
        ghost var before := objects;
        ReleaseHandle(0);
        FadesSize(before, objects);
      }
    }
  }

  /** What an object pushes when it is marked. */
  function Pushed(o: Object): seq<Id> {
    if o.Identity? then Present([o.gradient, o.base, if o.trueLeaf then None else o.entry])
    else Present([o.leafOwner] + o.inputs)
  }

  lemma {:induction false} InPresent(ids: seq<Option<Id>>, k: Id)
    ensures k in Present(ids) <==> Some(k) in ids
  {
    if ids != [] {
      InPresent(ids[..|ids| - 1], k);
      assert ids == ids[..|ids| - 1] + [ids[|ids| - 1]];
    }
  }

  lemma PushedHeld(o: Object)
    requires Alive(o)
    ensures forall k: Id :: k in Pushed(o) <==> k in Held(o)
  {
    forall k: Id ensures k in Pushed(o) <==> k in Held(o) {
      PushedHeldAt(o, k);
    }
    hide Pushed, Held, Alive;
  }

  lemma PushedHeldAt(o: Object, k: Id)
    requires Alive(o)
    ensures k in Pushed(o) <==> k in Held(o)
  {
    if o.Identity? {
      IdentityPushed(o.gradient, o.base, if o.trueLeaf then None else o.entry, k);
    } else {
      NodePushed(o.inputs, o.leafOwner, k);
      assert Held(o) == All(o.inputs) + One(o.leafOwner);
    }
    hide Present, All, One;
  }

  lemma IdentityPushed(gradient: Option<Id>, base: Option<Id>, entry: Option<Id>, k: Id)
    ensures k in Present([gradient, base, entry]) <==> k in One(base) + One(entry) + One(gradient)
  {
    InPresent([gradient, base, entry], k);
    hide Present;
  }

  lemma NodePushed(inputs: seq<Option<Id>>, leafOwner: Option<Id>, k: Id)
    ensures k in Present([leafOwner] + inputs) <==> k in All(inputs) + One(leafOwner)
  {
    InPresent([leafOwner] + inputs, k);
    InAll(inputs, k);
    assert Some(k) in [leafOwner] + inputs <==> Some(k) == leafOwner || Some(k) in inputs;
    hide Present, All;
  }

  function Below(n: nat): (r: set<Id>)
    ensures forall k: Id :: k in r <==> k < n
  {
    if n == 0 then {} else Below(n - 1) + {n - 1}
  }

  lemma FewerUnmarked(n: nat, marked: set<Id>, k: Id)
    requires k < n && k !in marked
    ensures |Below(n) - (marked + {k})| < |Below(n) - marked|
  {
    assert Below(n) - marked == (Below(n) - (marked + {k})) + {k};
  }

  lemma MarkStarts(objects: seq<Object>, roots: multiset<Id>, pending: seq<Id>)
    requires roots == multiset(pending) && Counted(objects, roots + multiset{})
    ensures Marking(objects, roots, {} + {}, pending)
  {
    assert roots + multiset{} == roots;
    forall k | k in pending ensures k < |objects| && Reachable(objects, roots, k) {
      assert k in roots;
      ReachableRoot(objects, roots, k);
    }
    hide Reachable, Held, CountedAt;
  }

  /** What is pending is alive. */
  lemma MarkOwner(objects: seq<Object>, roots: multiset<Id>, marked: set<Id>, pending: seq<Id>, owner: Id)
    requires Marking(objects, roots, marked, pending + [owner]) && Counted(objects, roots + multiset{})
    ensures owner < |objects| && Alive(objects[owner]) && Counted(objects, roots)
  {
    hide Reachable, Counted, Held, Alive, SameEdges;
    assert roots + multiset{} == roots && owner in pending + [owner];
    FadesSelf(objects);
    ReachableAlive(objects, objects, roots, roots, owner);
  }

  /** One owner taken from the pending ones, marked before or not. */
  lemma MarkTurn(objects: seq<Object>, roots: multiset<Id>, live: set<Id>, histories: set<Id>, pending: seq<Id>,
                 owner: Id)
    requires Marking(objects, roots, live + histories, pending + [owner]) && Counted(objects, roots + multiset{})
    requires forall k :: k in live ==> k < |objects| && objects[k].Identity?
    requires forall k :: k in histories ==> k < |objects| && objects[k].HistoryNode?
    ensures owner < |objects| && (objects[owner].Identity? ==> !objects[owner].retired)
    ensures var live' := if objects[owner].Identity? then live + {owner} else live;
            var histories' := if objects[owner].Identity? then histories else histories + {owner};
            if owner in live + histories
            then Marking(objects, roots, live + histories, pending)
            else Marking(objects, roots, live' + histories', pending + Pushed(objects[owner]))
                 && |Below(|objects|) - (live' + histories')| < |Below(|objects|) - (live + histories)|
  {
    hide Counted, Reachable, Held, Marking, Pushed, Below;
    var marked := live + histories;
    MarkOwner(objects, roots, marked, pending, owner);
    if owner in marked {
      MarkSkip(objects, roots, marked, pending, owner);
    } else {
      PushedHeld(objects[owner]);
      MarkNext(objects, roots, roots, marked, pending, owner, Pushed(objects[owner]));
      FewerUnmarked(|objects|, marked, owner);
      assert live + {owner} + histories == marked + {owner} == live + (histories + {owner});
    }
  }

  predicate AllIdentities(objects: seq<Object>, ids: multiset<Id>) {
    forall q :: q in ids ==> q < |objects| && objects[q].Identity?
  }

  lemma IdentitiesRemain(before: seq<Object>, after: seq<Object>, ids: multiset<Id>)
    requires Fades(before, after) && AllIdentities(before, ids)
    ensures AllIdentities(after, ids)
  {
    forall q | q in ids ensures q < |after| && after[q].Identity? {
      assert FadesAt(before, after, q);
    }
    hide Alive, SameEdges;
  }

  lemma IsThere(objects: seq<Object>, i: Id)
    requires AllIdentities(objects, multiset{i})
    ensures i < |objects| && objects[i].Identity?
  {
  }

  lemma IsAmong(objects: seq<Object>, ids: seq<Id>, i: nat)
    requires AllIdentities(objects, multiset(ids)) && i < |ids|
    ensures ids[i] < |objects| && objects[ids[i]].Identity?
  {
    assert ids[i] in multiset(ids);
  }

  lemma NoIdentities(objects: seq<Object>)
    ensures AllIdentities(objects, multiset([]))
  {
  }

  lemma IdentitiesFewer(objects: seq<Object>, ids: multiset<Id>, fewer: multiset<Id>, others: multiset<Id>)
    requires AllIdentities(objects, ids) && ids + multiset{} == fewer + others
    ensures AllIdentities(objects, fewer) && AllIdentities(objects, others)
  {
    assert forall q :: q in fewer || q in others ==> q in fewer + others;
    assert ids + multiset{} == ids;
  }

  lemma QueueEmpty(objects: seq<Object>, queue: seq<Id>)
    requires Queued(objects, queue) && queue == []
    ensures forall k :: 0 <= k < |objects| && objects[k].Identity? && !objects[k].retired ==> objects[k].references > 0
  {
  }

  lemma IdentitiesMore(objects: seq<Object>, ids: multiset<Id>, i: Id)
    requires AllIdentities(objects, ids) && i < |objects| && objects[i].Identity?
    ensures AllIdentities(objects, ids + multiset{i})
  {
  }

  lemma AssociationsAppend(objects: seq<Object>, o: Object)
    ensures Associations(objects + [o]) == Associations(objects) + HasGradient(o)
  {
    assert (objects + [o])[..|objects|] == objects;
  }

  lemma QueuedAppend(objects: seq<Object>, queue: seq<Id>, o: Object)
    requires Queued(objects, queue) && (o.Identity? ==> o.references > 0)
    ensures Queued(objects + [o], queue)
  {
  }

  /** With one more reference to the base of a view. */
  function WithBase(objects: seq<Object>, base: Option<Id>): seq<Object>
    requires IsIdentity(objects, base)
  {
    if base.Some? then objects[base.value := Retained(objects[base.value])] else objects
  }

  /** Retaining the base, then adding the identity that owns it. */
  lemma Creating(objects: seq<Object>, queue: seq<Id>, roots: multiset<Id>, base: Option<Id>, entry: Option<Id>,
                 o: Object)
    requires Counted(objects, roots + One(entry)) && Queued(objects, queue) && queue == []
    requires IsIdentity(objects, base) && (base.Some? ==> !objects[base.value].retired) && IsNode(objects, entry)
    requires o.Identity? && o == Identity(1, false, None, base, entry, o.trueLeaf) && (o.trueLeaf ==> entry.None?)
    ensures var after := WithBase(objects, base) + [o];
            && Counted(after, roots + multiset{|objects|}) && Queued(after, queue)
            && Associations(after) == Associations(objects)
  {
    hide Counted, Queued, Associations, Held, Linked, HasGradient;
    var kept := WithBase(objects, base);
    if base.Some? {
      Retain(objects, queue, roots + One(entry), base.value);
    }
    NewExternal(roots, base, entry, |objects|);
    NewHeld(base, entry, o);
    NewLinked(objects, kept, o);
    hide One, IsIdentity, IsNode, Alive, Retained;
    CountedAppend(kept, roots + One(entry) + One(base), roots + multiset{|objects|}, o);
    QueuedAppend(kept, queue, o);
    AssociationsAppend(kept, o);
  }

  lemma NewExternal(roots: multiset<Id>, base: Option<Id>, owned: Option<Id>, n: Id)
    ensures roots + One(owned) + One(base) - (One(owned) + One(base)) + multiset{}[n := 1] == roots + multiset{n}
    ensures One(owned) + One(base) <= roots + One(owned) + One(base)
    ensures roots + One(owned) + One(None) == roots + One(owned)
  {
    hide One;
    assert roots + One(owned) + One(base) - (One(owned) + One(base)) == roots;
    assert multiset{}[n := 1] == multiset{n};
    NoneIsEmpty();
  }

  lemma NoneIsEmpty()
    ensures One(None) == multiset{}
  {
  }

  lemma NewLinked(objects: seq<Object>, kept: seq<Object>, o: Object)
    requires o.Identity? && o.gradient.None? && IsIdentity(objects, o.base) && IsNode(objects, o.entry)
    requires kept == WithBase(objects, o.base)
    ensures Linked(kept, o) && |kept| == |objects|
  {
  }

  lemma NewHeld(base: Option<Id>, owned: Option<Id>, o: Object)
    requires o.Identity? && o == Identity(1, false, None, base, o.entry, o.trueLeaf)
    requires owned == o.entry && (o.trueLeaf ==> owned.None?)
    ensures Held(o) == One(owned) + One(base) && HasGradient(o) == 0
  {
  }

  lemma Ending(objects: seq<Object>, queue: seq<Id>, external: multiset<Id>, owner: Id)
    requires Counted(objects, external) && Queued(objects, queue)
    requires owner < |objects| && objects[owner].Identity? && !objects[owner].retired && objects[owner].trueLeaf
    ensures var n := |objects|;
            var longer := objects + [HistoryNode(0, [], Some(owner))];
            var after := longer[owner := objects[owner].(entry := Some(n))];
            && Counted(after, external) && Queued(after, queue) && Associations(after) == Associations(objects)
            && SameKinds(objects, after)
  {
    hide Counted, Queued, Associations, Held, Linked;
    var n, node := |objects|, HistoryNode(0, [], Some(owner));
    var longer := objects + [node];
    var o := objects[owner].(entry := Some(n));
    EndingHeld(objects, external, owner, node, o);
    assert external == external - Held(node) + multiset{}[n := 0];
    CountedAppend(objects, external, external, node);
    QueuedAppend(objects, queue, node);
    AssociationsAppend(objects, node);
    ExternalInside(objects, external);
    CountedUpdate(longer, external, external, owner, o);
    EndingQueued(longer, queue, owner, o);
    AssociationsUpdate(longer, owner, o);
  }

  lemma ExternalInside(objects: seq<Object>, external: multiset<Id>)
    requires Counted(objects, external)
    ensures forall k :: k in external ==> k < |objects|
  {
    hide CountedAt;
  }

  lemma EndingQueued(objects: seq<Object>, queue: seq<Id>, i: Id, o: Object)
    requires Queued(objects, queue) && i < |objects| && objects[i].Identity? && o.Identity?
    requires o.references == objects[i].references && o.retired == objects[i].retired
    ensures Queued(objects[i := o], queue)
  {
  }

  lemma EndingHeld(objects: seq<Object>, external: multiset<Id>, owner: Id, node: Object, o: Object)
    requires Counted(objects, external) && owner < |objects| && objects[owner].Identity? && !objects[owner].retired
    requires objects[owner].trueLeaf && node == HistoryNode(0, [], Some(owner))
    requires o == objects[owner].(entry := Some(|objects|))
    ensures Held(node) == multiset{} && Linked(objects, node) && HasGradient(node) == 0
    ensures Held(o) == Held(objects[owner]) && Linked(objects + [node], o)
    ensures HasGradient(o) == HasGradient(objects[owner])
  {
    hide Held, Linked, Owned;
    assert CountedAt(objects, external, owner);
    EndingOwner(objects, owner, node, o);
    hide Counted;
  }

  lemma EndingOwner(objects: seq<Object>, owner: Id, node: Object, o: Object)
    requires owner < |objects| && objects[owner].Identity? && !objects[owner].retired && Linked(objects, objects[owner])
    requires objects[owner].trueLeaf && node == HistoryNode(0, [], Some(owner))
    requires o == objects[owner].(entry := Some(|objects|))
    ensures Held(node) == multiset{} && Linked(objects, node) && HasGradient(node) == 0
    ensures Held(o) == Held(objects[owner]) && Linked(objects + [node], o)
    ensures HasGradient(o) == HasGradient(objects[owner])
  {
  }

  /** An input that can be recorded: a node in use, or an unused end of a leaf that is still there. */
  predicate Recordable(objects: seq<Object>, input: Option<Id>) {
    input.Some? ==>
      && input.value < |objects| && objects[input.value].HistoryNode?
      && (objects[input.value].references > 0
          || (objects[input.value].inputs == []
              && (objects[input.value].leafOwner.Some? ==>
                    objects[input.value].leafOwner.value < |objects|
                    && objects[objects[input.value].leafOwner.value].Identity?
                    && !objects[objects[input.value].leafOwner.value].retired)))
  }

  /** Only reference counts go up. */
  predicate Grows(before: seq<Object>, after: seq<Object>) {
    |before| == |after|
    && forall k :: 0 <= k < |before| ==>
         && SameEdges(before[k], after[k]) && before[k].references <= after[k].references
         && (before[k].Identity? ==> before[k].retired == after[k].retired)
  }

  lemma GrowsSelf(objects: seq<Object>)
    ensures Grows(objects, objects)
  {
  }

  lemma GrowsMore(a: seq<Object>, b: seq<Object>, c: seq<Object>)
    requires Grows(a, b) && Grows(b, c)
    ensures Grows(a, c) && |a| == |c|
  {
  }

  lemma GrowsLayered(before: seq<Object>, after: seq<Object>)
    requires Grows(before, after) && Layered(before)
    ensures Layered(after) && SameKinds(before, after)
  {
    StillLayered(before, after);
    hide Layered;
  }

  lemma RetainedKeeps(objects: seq<Object>, i: Id)
    requires i < |objects| && Layered(objects)
    ensures var after := objects[i := Retained(objects[i])];
            Grows(objects, after) && Layered(after) && SameKinds(objects, after)
  {
    hide Layered;
    GrowsLayered(objects, objects[i := Retained(objects[i])]);
  }

  lemma WanesKeeps(objects: seq<Object>, i: Id, o: Object)
    requires i < |objects| && Layered(objects) && Wanes(objects[i], o)
    ensures Layered(objects[i := o]) && SameKinds(objects, objects[i := o])
  {
    StillLayered(objects, objects[i := o]);
    hide Layered;
  }

  lemma CreatedKeeps(objects: seq<Object>, base: Option<Id>, o: Object)
    requires Layered(objects) && IsIdentity(objects, base) && o.Identity? && o.base == base
    requires o.trueLeaf ==> base.None?
    ensures var after := WithBase(objects, base) + [o];
            && |after| == |objects| + 1 && after[|objects|] == o && Layered(after) && SameKinds(objects, after)
            && Grows(objects, after[..|objects|])
  {
    hide Layered;
    var kept := WithBase(objects, base);
    GrowsLayered(objects, kept);
    LayeredAppend(kept, o);
    assert (kept + [o])[..|kept|] == kept;
  }

  lemma RecordedKeeps(before: seq<Object>, kept: seq<Object>, inputs: seq<Option<Id>>)
    requires Grows(before, kept) && Layered(before)
    requires forall p :: 0 <= p < |inputs| ==> Recordable(kept, inputs[p])
    ensures var after := kept + [HistoryNode(1, inputs, None)];
            Layered(after) && SameKinds(before, after) && Grows(before, after[..|kept|])
  {
    hide Layered;
    var o := HistoryNode(1, inputs, None);
    GrowsLayered(before, kept);
    forall p | 0 <= p < |inputs| && inputs[p].Some? ensures inputs[p].value < |kept| {
      assert Recordable(kept, inputs[p]);
    }
    LayeredAppend(kept, o);
    assert (kept + [o])[..|kept|] == kept;
    hide Grows;
  }

  lemma StillRecordable(before: seq<Object>, after: seq<Object>, input: Option<Id>)
    requires Grows(before, after) && Recordable(before, input)
    ensures Recordable(after, input)
  {
  }

  lemma PresentNone(inputs: seq<Option<Id>>)
    ensures multiset(Present(inputs[..0])) == multiset{}
  {
    assert inputs[..0] == [];
  }

  lemma PresentNext(inputs: seq<Option<Id>>, p: nat)
    requires p < |inputs|
    ensures multiset(Present(inputs[..p + 1])) == multiset(Present(inputs[..p])) + One(inputs[p])
  {
    assert inputs[..p + 1][..p] == inputs[..p];
  }

  lemma Adopting(objects: seq<Object>, external: multiset<Id>, input: Id)
    requires Counted(objects, external) && Queued(objects, []) && Recordable(objects, Some(input))
    ensures var node := objects[input];
            var leaf := if node.references == 0 then node.leafOwner else None;
            var kept := if leaf.Some? then objects[leaf.value := Retained(objects[leaf.value])] else objects;
            var after := kept[input := Retained(kept[input])];
            && Counted(after, external + multiset{input})
            && Queued(after, []) && Associations(after) == Associations(objects) && Grows(objects, after)
  {
    var node := objects[input];
    var leaf := if node.references == 0 then node.leafOwner else None;
    var kept := if leaf.Some? then objects[leaf.value := Retained(objects[leaf.value])] else objects;
    hide Counted, Queued, Associations, Held, Linked, HasGradient;
    if leaf.Some? {
      Retain(objects, [], external, leaf.value);
    }
    assert external + One(None) == external;
    hide One;
    assert Counted(kept, external + One(leaf)) && Queued(kept, []) && Associations(kept) == Associations(objects);
    AdoptHeld(kept, external + One(leaf), input, leaf);
    AdoptCounted(kept, external, input, leaf);
    AdoptQueued(kept, input);
    AssociationsUpdate(kept, input, Retained(node));
    AdoptGrows(objects, leaf, input);
    hide SameEdges, Alive, Retained;
  }

  lemma AdoptGrows(objects: seq<Object>, leaf: Option<Id>, input: Id)
    requires input < |objects| && objects[input].HistoryNode?
    requires leaf.Some? ==> leaf.value < |objects| && objects[leaf.value].Identity?
    ensures var kept := if leaf.Some? then objects[leaf.value := Retained(objects[leaf.value])] else objects;
            Grows(objects, kept[input := Retained(kept[input])])
  {
  }

  lemma AdoptQueued(objects: seq<Object>, input: Id)
    requires Queued(objects, []) && input < |objects| && objects[input].HistoryNode?
    ensures Queued(objects[input := Retained(objects[input])], [])
  {
  }

  lemma AdoptHeld(objects: seq<Object>, external: multiset<Id>, input: Id, leaf: Option<Id>)
    requires Counted(objects, external) && input < |objects| && objects[input].HistoryNode?
    requires objects[input].references == 0 ==> objects[input].inputs == [] && leaf == objects[input].leafOwner
    requires objects[input].references > 0 ==> leaf.None?
    ensures Held(Retained(objects[input])) == Held(objects[input]) + One(leaf)
    ensures Linked(objects, Retained(objects[input]))
    ensures HasGradient(Retained(objects[input])) == HasGradient(objects[input])
  {
    assert CountedAt(objects, external, input);
    hide Counted, Owned;
  }

  lemma AdoptCounted(objects: seq<Object>, external: multiset<Id>, input: Id, leaf: Option<Id>)
    requires Counted(objects, external + One(leaf)) && input < |objects| && objects[input].HistoryNode?
    requires Held(Retained(objects[input])) == Held(objects[input]) + One(leaf)
    requires Linked(objects, Retained(objects[input]))
    ensures Counted(objects[input := Retained(objects[input])], external + multiset{input})
  {
    hide Held, Linked;
    ExternalInside(objects, external + One(leaf));
    assert forall k :: k in external ==> k in external + One(leaf);
    CountedUpdate(objects, external + One(leaf), external + multiset{input}, input, Retained(objects[input]));
    hide Counted;
  }

  /** The new node takes over one reference to each of its inputs. */
  lemma Recording(objects: seq<Object>, roots: multiset<Id>, inputs: seq<Option<Id>>)
    requires Counted(objects, roots + multiset(Present(inputs))) && Queued(objects, [])
    requires forall p :: 0 <= p < |inputs| ==> Recordable(objects, inputs[p])
    ensures var after := objects + [HistoryNode(1, inputs, None)];
            && Counted(after, roots + multiset{|objects|})
            && Queued(after, []) && Associations(after) == Associations(objects)
  {
    hide Counted, Queued, Associations;
    var node := HistoryNode(1, inputs, None);
    PresentAll(inputs);
    NodeHeld(objects, inputs);
    hide Held, Linked, All, Present, Recordable;
    assert roots + All(inputs) - All(inputs) + multiset{}[|objects| := 1] == roots + multiset{|objects|};
    CountedAppend(objects, roots + All(inputs), roots + multiset{|objects|}, node);
    QueuedAppend(objects, [], node);
    AssociationsAppend(objects, node);
  }

  lemma NodeHeld(objects: seq<Object>, inputs: seq<Option<Id>>)
    requires forall p :: 0 <= p < |inputs| ==> Recordable(objects, inputs[p])
    ensures var node := HistoryNode(1, inputs, None);
            Held(node) == All(inputs) && Linked(objects, node) && HasGradient(node) == 0
  {
    assert forall p :: 0 <= p < |inputs| ==> Recordable(objects, inputs[p]) && IsNode(objects, inputs[p]);
    hide All;
  }

  /** Cutting associations keeps what the other invariants are about. */
  lemma CutKeeps(before: seq<Object>, cut: seq<Object>, marked: set<Id>, roots: multiset<Id>)
    requires CutBelow(before, cut, marked, |before|) && Layered(before) && AllIdentities(before, roots)
    ensures Layered(cut) && AllIdentities(cut, roots)
  {
    StillLayered(before, cut);
    hide Layered;
  }

  /** An identity that is still there. */
  predicate Exposed(objects: seq<Object>, i: Id) { i < |objects| && objects[i].Identity? && !objects[i].retired }

  lemma ExposedParts(objects: seq<Object>, i: Id)
    requires Exposed(objects, i)
    ensures i < |objects| && objects[i].Identity? && !objects[i].retired
  {
  }

  lemma StillExposed(before: seq<Object>, after: seq<Object>, i: Id)
    requires Grows(before, after) && Exposed(before, i)
    ensures Exposed(after, i)
  {
  }

  lemma GradientAlive(objects: seq<Object>, external: multiset<Id>, i: Id)
    requires Counted(objects, external) && i < |objects| && objects[i].Identity? && !objects[i].retired
    requires objects[i].gradient.Some?
    ensures Exposed(objects, objects[i].gradient.value)
  {
    HeldParts(objects, external, i);
    HeldOwned(objects, i);
    TargetAlive(objects, external, objects[i].gradient.value);
    hide Counted, Owned;
  }

  /** What holds after references have been given up. */
  lemma AfterRelease(before: seq<Object>, after: seq<Object>, roots: multiset<Id>)
    requires Fades(before, after) && Layered(before) && AllIdentities(before, roots)
    requires Counted(after, roots + multiset{})
    ensures Layered(after) && AllIdentities(after, roots) && Preserved(before, after, roots)
  {
    assert roots + multiset{} == roots;
    FadesLayered(before, after);
    IdentitiesRemain(before, after, roots);
    StillReached(before, after, roots);
    hide Fades, Layered, AllIdentities, Counted, Preserved;
  }

  /** Nothing is reached without roots. */
  lemma NothingReached(before: seq<Object>, after: seq<Object>, roots: multiset<Id>)
    requires Collected(before, after, roots) && roots == multiset{}
    ensures |before| == |after| && forall k :: 0 <= k < |after| ==> !Alive(after[k])
  {
    hide Alive, SameEdges, Chain;
    forall k | 0 <= k < |after| ensures !Alive(after[k]) {
      assert !Reachable(before, roots, k);
    }
  }

  function Retained(o: Object): Object {
    match o
    case Identity(references, retired, gradient, base, entry, trueLeaf) =>
      Identity(references + 1, retired, gradient, base, entry, trueLeaf)
    case HistoryNode(references, inputs, leafOwner) => HistoryNode(references + 1, inputs, leafOwner)
  }

  /** One more reference to something alive. */
  lemma Retain(objects: seq<Object>, queue: seq<Id>, external: multiset<Id>, i: Id)
    requires Counted(objects, external) && Queued(objects, queue) && queue == []
    requires i < |objects| && Alive(objects[i])
    ensures Counted(objects[i := Retained(objects[i])], external + multiset{i})
    ensures Queued(objects[i := Retained(objects[i])], queue)
    ensures Associations(objects[i := Retained(objects[i])]) == Associations(objects)
  {
    hide Owned, Associations, Held, Linked;
    assert CountedAt(objects, external, i);
    RetainedHeld(objects, objects[i]);
    CountedUpdate(objects, external, external + multiset{i}, i, Retained(objects[i]));
    AssociationsUpdate(objects, i, Retained(objects[i]));
    hide Counted, CountedAt;
  }

  lemma RetainedHeld(objects: seq<Object>, o: Object)
    requires Alive(o) && Linked(objects, o)
    ensures Held(Retained(o)) == Held(o) && HasGradient(Retained(o)) == HasGradient(o) && Linked(objects, Retained(o))
    ensures (Retained(o).Identity? <==> o.Identity?) && !(Retained(o).Identity? && Retained(o).retired)
    ensures Retained(o).references == o.references + 1
  {
  }

  lemma StatesWith(states: seq<Id>, a: multiset<Id>, b: multiset<Id>, i: Id)
    ensures var with := multiset(states + [i]) + a + b;
            && multiset(states) + a + b + multiset{i} == with == with + multiset{}
            && multiset(states) + a + b + multiset{} + multiset{i} == with + multiset{}
  {
  }

  lemma WithMiddle(a: multiset<Id>, b: multiset<Id>, c: multiset<Id>, i: Id)
    ensures var with := a + (b + multiset{i}) + c;
            && a + b + c + multiset{i} == with == with + multiset{}
            && a + b + c + multiset{} + multiset{i} == with + multiset{}
  {
  }

  lemma WithLast(a: multiset<Id>, b: multiset<Id>, c: multiset<Id>, i: Id)
    ensures var with := a + b + (c + multiset{i});
            && a + b + c + multiset{i} == with == with + multiset{}
            && a + b + c + multiset{} + multiset{i} == with + multiset{}
  {
  }

  lemma StatesWithout(states: seq<Id>, a: multiset<Id>, b: multiset<Id>, s: nat)
    requires s < |states|
    ensures multiset(states) + a + b + multiset{}
         == multiset(states[..s] + states[s + 1..]) + a + b + multiset{states[s]}
    ensures multiset(states) + a + b + multiset{}
         == multiset(states[..s] + states[s + 1..]) + a + b + (multiset{} + multiset{states[s]})
  {
    assert states == states[..s] + [states[s]] + states[s + 1..];
  }

  lemma LessMiddle(a: multiset<Id>, b: multiset<Id>, c: multiset<Id>, less: multiset<Id>, released: multiset<Id>)
    requires b == less + released
    ensures a + b + c + multiset{} == a + less + c + released
  {
  }

  lemma LessLast(a: multiset<Id>, b: multiset<Id>, c: multiset<Id>, less: multiset<Id>, released: multiset<Id>)
    requires c == less + released
    ensures a + b + c + multiset{} == a + b + less + released
  {
  }

  /** Everything that can be reached is as it was. */
  ghost predicate Preserved(before: seq<Object>, after: seq<Object>, roots: multiset<Id>) {
    |before| == |after|
    && forall k: Id :: k < |before| && Reachable(before, roots, k) ==> Alive(after[k]) && SameEdges(before[k], after[k])
  }

  lemma StillReached(before: seq<Object>, after: seq<Object>, roots: multiset<Id>)
    requires Fades(before, after) && Counted(after, roots)
    ensures Preserved(before, after, roots)
  {
    forall k: Id | k < |before| && Reachable(before, roots, k)
      ensures Alive(after[k]) && SameEdges(before[k], after[k])
    {
      ReachableAlive(before, after, roots, roots, k);
    }
    FadesSize(before, after);
    hide Fades, Counted, Reachable, Alive, SameEdges;
  }

  /** What becomes of an identity that gets another gradient, before the previous one is given up. */
  function Reassigned(objects: seq<Object>, owner: Id, successor: Option<Id>): seq<Object>
    requires owner < |objects| && objects[owner].Identity?
    requires successor.Some? ==> Exposed(objects, successor.value)
  {
    if objects[owner].gradient == successor then objects
    else
      var kept := if successor.Some? then objects[successor.value := Retained(objects[successor.value])] else objects;
      kept[owner := kept[owner].(gradient := successor)]
  }

  lemma ReassignedKeeps(objects: seq<Object>, roots: multiset<Id>, owner: Id, successor: Option<Id>)
    requires owner < |objects| && objects[owner].Identity? && Layered(objects) && AllIdentities(objects, roots)
    requires successor.Some? ==> Exposed(objects, successor.value)
    ensures Layered(Reassigned(objects, owner, successor))
    ensures AllIdentities(Reassigned(objects, owner, successor), roots)
  {
    hide Layered, AllIdentities;
    StillLayered(objects, Reassigned(objects, owner, successor));
    KindsRemain(objects, Reassigned(objects, owner, successor), roots);
  }

  lemma SameGradient(objects: seq<Object>, owner: Id)
    requires owner < |objects| && objects[owner].Identity?
    requires objects[owner].gradient.Some? ==> Exposed(objects, objects[owner].gradient.value)
    ensures Reassigned(objects, owner, objects[owner].gradient) == objects
  {
  }

  /**
   * Exchanging the entry of an identity moves its reference from one history to
   * the other exactly if it is not a leaf. The entry of a leaf owns nothing, so
   * that there the new history keeps a reference that nobody gives up, and the
   * old one loses one that nobody held.
   */
  lemma EntryReplaced(objects: seq<Object>, roots: multiset<Id>, owner: Id, successor: Option<Id>)
    requires Counted(objects, roots + One(successor)) && IsNode(objects, successor)
    requires owner < |objects| && objects[owner].Identity? && !objects[owner].retired
    ensures Counted(objects[owner := objects[owner].(entry := successor)], roots + One(objects[owner].entry))
       <==> (!objects[owner].trueLeaf || objects[owner].entry == successor)
  {
    hide Owned, Held;
    var previous, o := objects[owner].entry, objects[owner].(entry := successor);
    assert CountedAt(objects, roots + One(successor), owner);
    EntryHeld(objects, owner, successor);
    if !objects[owner].trueLeaf {
      PreviousNode(objects, roots, roots + One(successor), previous);
      Balance(roots, One(previous), One(successor), Held(o), Held(objects[owner]));
      CountedUpdate(objects, roots + One(successor), roots + One(previous), owner, o);
    } else if previous == successor {
      assert objects[owner := o] == objects;
    } else {
      var k := if successor.Some? then successor.value else previous.value;
      assert CountedAt(objects, roots + One(successor), k);
      OwnedUpdate(objects, owner, o);
      SameAfter(Owned(objects), Owned(objects[owner := o]), Held(o));
      assert !CountedAt(objects[owner := o], roots + One(previous), k);
    }
    hide Counted;
  }

  /** A leaf with one handle, the end that its first use gave it, and the node that a recorded write has made of it. */
  function WrittenLeaf(): seq<Object> {
    [Identity(2, false, None, None, Some(1), true), HistoryNode(1, [], Some(0)), HistoryNode(1, [Some(1)], None)]
  }

  /** Giving that leaf the new history leaves the counts wrong. */
  lemma LeafEntryFails()
    ensures var objects := WrittenLeaf();
            && Counted(objects, multiset{0} + One(Some(2))) && Layered(objects)
            && !Counted(objects[0 := objects[0].(entry := Some(2))], multiset{0} + One(Some(1)))
  {
    var objects := WrittenLeaf();
    WrittenLeafOwned();
    assert IsNode(objects, Some(1)) && IsNode(objects, Some(2)) && IsIdentity(objects, Some(0));
    forall i | 0 <= i < |objects| ensures CountedAt(objects, multiset{0} + One(Some(2)), i) && LayeredAt(objects, i) {
    }
    EntryReplaced(objects, multiset{0}, 0, Some(2));
    hide Owned;
  }

  lemma WrittenLeafOwned()
    ensures Owned(WrittenLeaf()) == multiset{0, 1}
  {
    hide Owned, Held;
    var a, b, c := WrittenLeaf()[0], WrittenLeaf()[1], WrittenLeaf()[2];
    WrittenLeafHeld();
    OwnedNone();
    OwnedAppend([], a);
    OwnedAppend([a], b);
    OwnedAppend([a, b], c);
    assert [] + [a] == [a] && [a] + [b] == [a, b] && [a, b] + [c] == WrittenLeaf();
  }

  lemma OwnedNone()
    ensures Owned([]) == multiset{}
  {
  }

  lemma WrittenLeafHeld()
    ensures Held(WrittenLeaf()[0]) == multiset{} && Held(WrittenLeaf()[1]) == multiset{0}
    ensures Held(WrittenLeaf()[2]) == multiset{1}
  {
    assert [Some(1)][..0] == [];
  }

  lemma Balance(roots: multiset<Id>, previous: multiset<Id>, successor: multiset<Id>, after: multiset<Id>,
                before: multiset<Id>)
    requires after + previous == before + successor
    ensures forall k: Id :: (roots + previous)[k] + after[k] == (roots + successor)[k] + before[k]
  {
    forall k: Id ensures (roots + previous)[k] + after[k] == (roots + successor)[k] + before[k] {
      assert (after + previous)[k] == (before + successor)[k];
    }
  }

  lemma SameAfter(a: multiset<Id>, b: multiset<Id>, held: multiset<Id>)
    requires b + held == a + held
    ensures a == b
  {
    assert a == a + held - held && b == b + held - held;
  }

  lemma EntryHeld(objects: seq<Object>, owner: Id, successor: Option<Id>)
    requires owner < |objects| && objects[owner].Identity? && !objects[owner].retired && Linked(objects, objects[owner])
    requires IsNode(objects, successor)
    ensures var o := objects[owner].(entry := successor);
            && Linked(objects, o)
            && (objects[owner].trueLeaf ==> Held(o) == Held(objects[owner]))
            && (!objects[owner].trueLeaf ==>
                  Held(o) + One(objects[owner].entry) == Held(objects[owner]) + One(successor))
  {
  }

  lemma PreviousNode(objects: seq<Object>, roots: multiset<Id>, external: multiset<Id>, previous: Option<Id>)
    requires Counted(objects, external) && IsNode(objects, previous) && roots <= external
    ensures forall k :: k in roots + One(previous) ==> k < |objects|
  {
    forall k | k in roots ensures k in external {
    }
    hide CountedAt;
  }

  /** The rest of the bookkeeping when an entry is exchanged. */
  lemma Rerouting(objects: seq<Object>, queue: seq<Id>, roots: multiset<Id>, owner: Id, successor: Option<Id>)
    requires Queued(objects, queue) && Counted(objects, roots + One(successor))
    requires owner < |objects| && objects[owner].Identity? && !objects[owner].retired
    ensures var after := objects[owner := objects[owner].(entry := successor)];
            && Queued(after, queue) && Associations(after) == Associations(objects)
            && IsNode(after, objects[owner].entry)
            && roots + One(objects[owner].entry) == roots + (multiset{} + One(objects[owner].entry))
  {
    hide Associations, Owned, Held;
    assert CountedAt(objects, roots + One(successor), owner);
    AssociationsUpdate(objects, owner, objects[owner].(entry := successor));
    EndingQueued(objects, queue, owner, objects[owner].(entry := successor));
    hide Counted, Queued;
  }

  /** The new association takes over one reference, and leaves the previous one to be given up. */
  lemma Assign(objects: seq<Object>, queue: seq<Id>, roots: multiset<Id>, owner: Id, successor: Option<Id>)
    requires Counted(objects, roots + One(successor)) && Queued(objects, queue)
    requires owner < |objects| && objects[owner].Identity? && !objects[owner].retired && IsIdentity(objects, successor)
    ensures var after := objects[owner := objects[owner].(gradient := successor)];
            && Counted(after, roots + One(objects[owner].gradient)) && Queued(after, queue)
            && IsIdentity(after, objects[owner].gradient)
            && Associations(after) + (if objects[owner].gradient.Some? then 1 else 0)
               == Associations(objects) + (if successor.Some? then 1 else 0)
  {
    hide Owned, Associations, Held, Anchors;
    assert CountedAt(objects, roots + One(successor), owner);
    var o := objects[owner].(gradient := successor);
    GradientHeld(objects[owner], successor);
    PreviousCounted(objects, roots, roots + One(successor), owner);
    CountedUpdate(objects, roots + One(successor), roots + One(objects[owner].gradient), owner, o);
    AssociationsUpdate(objects, owner, o);
    hide Counted;
  }

  lemma GradientHeld(o: Object, successor: Option<Id>)
    requires o.Identity? && !o.retired
    ensures Held(o) == Anchors(o) + One(o.gradient)
    ensures Held(o.(gradient := successor)) == Anchors(o) + One(successor)
  {
  }

  lemma PreviousCounted(objects: seq<Object>, roots: multiset<Id>, external: multiset<Id>, owner: Id)
    requires Counted(objects, external) && owner < |objects| && objects[owner].Identity? && roots <= external
    ensures forall k :: k in roots + One(objects[owner].gradient) ==> k < |objects|
  {
    assert CountedAt(objects, external, owner);
    forall k | k in roots ensures k in external {
    }
    hide Owned;
  }

  /** Retaining the successor, then assigning it. */
  lemma Replacing(objects: seq<Object>, queue: seq<Id>, roots: multiset<Id>, owner: Id, successor: Option<Id>)
    requires Counted(objects, roots + multiset{}) && Queued(objects, queue) && queue == []
    requires owner < |objects| && objects[owner].Identity? && !objects[owner].retired
    requires objects[owner].gradient != successor
    requires successor.Some? ==> Exposed(objects, successor.value)
    ensures var previous, after := objects[owner].gradient, Reassigned(objects, owner, successor);
            && Counted(after, roots + (multiset{} + One(previous))) && Queued(after, queue)
              && IsIdentity(after, previous)
            && Associations(after) + (if previous.Some? then 1 else 0)
               == Associations(objects) + (if successor.Some? then 1 else 0)
  {
    hide Counted, Queued, Associations;
    if successor.Some? {
      Retain(objects, queue, roots + multiset{}, successor.value);
    }
    var kept := if successor.Some? then objects[successor.value := Retained(objects[successor.value])] else objects;
    var previous := objects[owner].gradient;
    assert roots + multiset{} + One(successor) == roots + One(successor) && roots + multiset{} == roots + One(None);
    assert roots + One(previous) == roots + (multiset{} + One(previous));
    Assign(kept, queue, roots, owner, successor);
  }

  lemma KindsRemain(before: seq<Object>, after: seq<Object>, ids: multiset<Id>)
    requires SameKinds(before, after) && AllIdentities(before, ids)
    ensures AllIdentities(after, ids)
  {
  }

  /** Cutting one association: its reference is still to be given up. */
  lemma Cutting(objects: seq<Object>, queue: seq<Id>, roots: multiset<Id>, released: seq<Id>, i: Id)
    requires Counted(objects, roots + multiset(released)) && Queued(objects, queue)
    requires AllIdentities(objects, multiset(released))
    requires i < |objects| && objects[i].Identity? && !objects[i].retired && objects[i].gradient.Some?
    ensures var g := objects[i].gradient.value;
            var cut := objects[i := objects[i].(gradient := None)];
            && Counted(cut, roots + multiset(released + [g])) && Queued(cut, queue)
            && AllIdentities(cut, multiset(released + [g])) && Associations(cut) + 1 == Associations(objects)
  {
    hide Counted, Queued, Associations, AllIdentities, Linked;
    var g := objects[i].gradient.value;
    Cut(objects, roots + multiset(released), i);
    CutAssociation(objects, i);
    CutTarget(objects, roots + multiset(released), i);
    EndingQueued(objects, queue, i, objects[i].(gradient := None));
    assert multiset(released + [g]) == multiset(released) + multiset{g};
    assert roots + multiset(released) + multiset{g} == roots + (multiset(released) + multiset{g});
    IdentitiesMore(objects, multiset(released), g);
    KindsRemain(objects, objects[i := objects[i].(gradient := None)], multiset(released + [g]));
  }

  lemma CutAssociation(objects: seq<Object>, i: Id)
    requires i < |objects| && objects[i].Identity? && !objects[i].retired && objects[i].gradient.Some?
    ensures Associations(objects[i := objects[i].(gradient := None)]) + 1 == Associations(objects)
    ensures SameKinds(objects, objects[i := objects[i].(gradient := None)])
  {
    AssociationsUpdate(objects, i, objects[i].(gradient := None));
    hide Associations;
  }

  lemma CutTarget(objects: seq<Object>, external: multiset<Id>, i: Id)
    requires Counted(objects, external) && i < |objects| && objects[i].Identity? && objects[i].gradient.Some?
    ensures objects[i].gradient.value < |objects| && objects[objects[i].gradient.value].Identity?
  {
    assert CountedAt(objects, external, i);
    hide Owned;
  }

  /** Dropping a node: its inputs and its leaf, if it was the last reference, are still to be given up. */
  lemma DroppingNode(objects: seq<Object>, queue: seq<Id>, roots: multiset<Id>, debts: multiset<Id>, pending: seq<Id>,
                     current: Id)
    requires Counted(objects, roots + (debts + multiset(pending + [current]))) && Queued(objects, queue)
    requires AllNodes(objects, pending + [current])
    ensures current < |objects| && objects[current].HistoryNode? && objects[current].references > 0
    ensures var dropped := objects[current := Dropped(objects[current])];
            var last := dropped[current].references == 0;
            var more := if last then pending + Present(objects[current].inputs) else pending;
            var leaf := if last then objects[current].leafOwner else None;
            && Counted(dropped, roots + (debts + multiset(more) + One(leaf)))
            && (leaf.None? ==> Counted(dropped, roots + (debts + multiset(more))))
            && Queued(dropped, queue) && Associations(dropped) == Associations(objects) && Fades(objects, dropped)
            && Living(dropped) <= Living(objects) && (last ==> Living(dropped) < Living(objects))
            && IsIdentity(dropped, leaf) && AllNodes(objects, more)
  {
    hide Counted, Queued, Associations, Fades, Living, Alive, Linked, Held, All;
    ghost var external := roots + (debts + multiset(pending + [current]));
    NodesParts(objects, pending, current);
    Dropping(objects, current, external);
    Drop(objects, external, current);
    DropNodeQueued(objects, queue, current);
    NodeParts(objects, external, current);
    var dropped := objects[current := Dropped(objects[current])];
    LivingFewer(objects, dropped);
    PresentAll(objects[current].inputs);
    Debts(roots, debts, pending, current, objects[current].inputs, objects[current].leafOwner);
  }

  lemma Debts(roots: multiset<Id>, debts: multiset<Id>, pending: seq<Id>, current: Id, inputs: seq<Option<Id>>,
              leaf: Option<Id>)
    requires multiset(Present(inputs)) == All(inputs)
    ensures var external := roots + (debts + multiset(pending + [current]));
            && external - multiset{current} + multiset{} == roots + (debts + multiset(pending))
            && roots + (debts + multiset(pending) + One(None)) == roots + (debts + multiset(pending))
            && external - multiset{current} + (All(inputs) + One(leaf))
               == roots + (debts + multiset(pending + Present(inputs)) + One(leaf))
            && roots + (debts + multiset(pending + Present(inputs)) + One(None))
              == roots + (debts + multiset(pending + Present(inputs)))
  {
    hide All, Present;
    assert multiset(pending + [current]) == multiset(pending) + multiset{current};
    assert multiset(pending + Present(inputs)) == multiset(pending) + multiset(Present(inputs));
  }

  lemma Regroup(roots: multiset<Id>, debts: multiset<Id>, base: multiset<Id>, entry: multiset<Id>,
                gradient: multiset<Id>)
    ensures roots + debts + (base + entry + gradient) == roots + (debts + base + entry + gradient)
    ensures debts + base + entry == debts + entry + base
  {
  }

  predicate AllNodes(objects: seq<Object>, ids: seq<Id>) {
    forall q :: q in ids ==> q < |objects| && objects[q].HistoryNode?
  }

  lemma NodesParts(objects: seq<Object>, pending: seq<Id>, current: Id)
    requires AllNodes(objects, pending + [current])
    ensures AllNodes(objects, pending) && current < |objects| && objects[current].HistoryNode?
  {
    assert current in pending + [current];
    assert forall q :: q in pending ==> q in pending + [current];
  }

  lemma NodesRemain(before: seq<Object>, after: seq<Object>, ids: seq<Id>)
    requires Fades(before, after) && AllNodes(before, ids)
    ensures AllNodes(after, ids)
  {
    forall q | q in ids ensures q < |after| && after[q].HistoryNode? {
      assert FadesAt(before, after, q);
    }
    hide Alive, SameEdges;
  }

  /** The inputs of a node are nodes, its leaf is an identity, and it owns them all. */
  lemma NodeParts(objects: seq<Object>, external: multiset<Id>, n: Id)
    requires Counted(objects, external) && n < |objects| && objects[n].HistoryNode? && objects[n].references > 0
    ensures Held(objects[n]) == All(objects[n].inputs) + One(objects[n].leafOwner)
    ensures AllNodes(objects, Present(objects[n].inputs)) && IsIdentity(objects, objects[n].leafOwner)
  {
    assert CountedAt(objects, external, n);
    var inputs := objects[n].inputs;
    forall q | q in Present(inputs) ensures q < |objects| && objects[q].HistoryNode? {
      var p :| 0 <= p < |inputs| && inputs[p] == Some(q);
      assert IsNode(objects, inputs[p]);
    }
    hide Owned;
  }

  lemma HeldParts(objects: seq<Object>, external: multiset<Id>, i: Id)
    requires Counted(objects, external) && i < |objects| && objects[i].Identity? && !objects[i].retired
    ensures var o := objects[i];
            Held(o) == One(o.base) + One(if o.trueLeaf then None else o.entry) + One(o.gradient)
    ensures Linked(objects, objects[i])
  {
    assert CountedAt(objects, external, i);
    hide Owned;
  }

  lemma StillLinks(before: seq<Object>, after: seq<Object>, o: Object)
    requires Fades(before, after) && Linked(before, o) && o.Identity?
    ensures Linked(after, o)
    ensures IsIdentity(after, o.gradient) && IsIdentity(after, o.base) && IsNode(after, o.entry)
  {
    forall i | 0 <= i < |before| ensures before[i].Identity? <==> after[i].Identity? {
      assert FadesAt(before, after, i);
    }
    StillLinked(before, after, o);
    hide Alive, SameEdges, FadesAt;
  }

  lemma QueuedParts(objects: seq<Object>, queue: seq<Id>, q: Id)
    requires Queued(objects, queue) && q in queue
    ensures q < |objects| && objects[q].Identity? && objects[q].references == 0
  {
  }

  lemma NotRetired(objects: seq<Object>, external: multiset<Id>, i: Id)
    requires Counted(objects, external) && i in external && i < |objects| && objects[i].Identity?
    ensures !objects[i].retired
  {
    TargetAlive(objects, external, i);
    hide Counted;
  }

  /** Without gradient associations counting alone leaves nothing unreachable, so that no pass need be scheduled. */
  lemma NothingToCollect(objects: seq<Object>, roots: multiset<Id>)
    requires Counted(objects, roots) && Queued(objects, []) && Associations(objects) == 0 && Layered(objects)
    ensures Collected(objects, objects, roots)
  {
    hide Counted, Reachable, Associations, Layered, Swept, Collected;
    ghost var marked := set m | m in Below(|objects|) && Reachable(objects, roots, m);
    forall m | 0 <= m < |objects| && objects[m].Identity? && !objects[m].retired
      ensures objects[m] == objects[m].(gradient := None)
    {
      NoAssociations(objects, m);
    }
    FadesSelf(objects);
    Collects(objects, objects, objects, roots, marked);
    ExactlyReachable(objects, objects, roots);
  }
}
