/**
 * The owners of a storage that are no computation of a program: with the counts
 * of a session, a storage has more references than the program has uses of it
 * exactly if somebody else refers to it.
 */
module OutsideOwners {
  import opened Options
  import opened Programs
  import opened InvocationUses
  import opened ProgramFormation
  import V = ValueOwnership

  type Owners = multiset<V.Id>

  /** The references to values over storage s that some owners hold. */
  function SharedBy(values: seq<V.TensorValue>, owners: Owners, s: V.Id): nat {
    if values == [] then 0
    else
      SharedBy(values[..|values| - 1], owners, s)
      + if values[|values| - 1].storage == s then owners[|values| - 1] else 0
  }

  lemma {:induction false} SharedBoth(values: seq<V.TensorValue>, a: Owners, b: Owners, s: V.Id)
    ensures SharedBy(values, a + b, s) == SharedBy(values, a, s) + SharedBy(values, b, s)
  {
    if values != [] {
      SharedBoth(values[..|values| - 1], a, b, s);
    }
  }

  lemma {:induction false} SharedNone(values: seq<V.TensorValue>, s: V.Id)
    ensures SharedBy(values, multiset{}, s) == 0
  {
    if values != [] {
      SharedNone(values[..|values| - 1], s);
    }
  }

  lemma {:induction false} SharedOne(values: seq<V.TensorValue>, v: V.Id, s: V.Id)
    ensures SharedBy(values, multiset{v}, s) == if v < |values| && values[v].storage == s then 1 else 0
  {
    if values != [] {
      SharedOne(values[..|values| - 1], v, s);
    }
  }

  lemma {:induction false} SharedSome(values: seq<V.TensorValue>, owners: Owners, s: V.Id)
    ensures SharedBy(values, owners, s) > 0 <==> exists w :: 0 <= w < |values| && values[w].storage == s && w in owners
  {
    if values != [] {
      var last := |values| - 1;
      SharedSome(values[..last], owners, s);
      if w :| 0 <= w < |values| && values[w].storage == s && w in owners {
        assert w < last ==> values[..last][w].storage == s;
      }
      if SharedBy(values[..last], owners, s) > 0 {
        var w :| 0 <= w < last && values[..last][w].storage == s && w in owners;
        assert values[w].storage == s;
      }
    }
  }

  /** A storage's references are those that producers hold and those that others hold. */
  lemma {:induction false} SharedCounts(values: seq<V.TensorValue>, owned: Owners, external: Owners, s: V.Id)
    requires forall v :: 0 <= v < |values| ==> values[v].references == owned[v] + external[v]
    ensures V.Shared(values, s) == SharedBy(values, owned, s) + SharedBy(values, external, s)
  {
    if values != [] {
      SharedCounts(values[..|values| - 1], owned, external, s);
    }
  }

  /** Operand slots lie over a storage slot exactly as their values lie over a storage. */
  predicate Matches(values: seq<V.TensorValue>, program: seq<ProgramValue>, inputs: seq<V.Id>, slots: seq<Slot>,
                    s: V.Id, slot: Slot)
  {
    && |inputs| == |slots|
    && forall i :: 0 <= i < |inputs| ==>
         inputs[i] < |values| && (values[inputs[i]].storage == s <==> StorageOf(program, slots[i]) == slot)
  }

  lemma {:induction false} SharedUses(values: seq<V.TensorValue>, program: seq<ProgramValue>, inputs: seq<V.Id>,
                                      slots: seq<Slot>, s: V.Id, slot: Slot)
    requires Matches(values, program, inputs, slots, s, slot)
    ensures SharedBy(values, multiset(inputs), s) == Uses(program, slots, slot)
  {
    if inputs == [] {
      SharedNone(values, s);
      assert multiset(inputs) == multiset{};
    } else {
      SharedUses(values, program, inputs[1..], slots[1..], s, slot);
      assert inputs == [inputs[0]] + inputs[1..];
      assert multiset(inputs) == multiset{inputs[0]} + multiset(inputs[1..]);
      SharedBoth(values, multiset{inputs[0]}, multiset(inputs[1..]), s);
      SharedOne(values, inputs[0], s);
      hide SharedBy;
    }
  }

  /** A reference to w that no computed storage's producer holds. */
  predicate RefersOutside(storages: seq<V.StorageState>, external: Owners, given: seq<V.Id>, w: V.Id) {
    w in external || exists t :: 0 <= t < |storages| && t !in given && w in V.Inputs(storages[t])
  }

  /** An owner of storage s besides the producers of some storages: a caller, or another storage's producer. */
  predicate OwnerOutside(values: seq<V.TensorValue>, storages: seq<V.StorageState>, external: Owners,
                         given: seq<V.Id>, s: V.Id)
  {
    exists w :: 0 <= w < |values| && values[w].storage == s && RefersOutside(storages, external, given, w)
  }

  lemma OwnedBy(storages: seq<V.StorageState>, w: V.Id)
    ensures w in V.Owned(storages) <==> exists t :: 0 <= t < |storages| && w in V.Inputs(storages[t])
  {
    hide V.Inputs;
    if w in V.Owned(storages) {
      var t := V.Owner(storages, w);
    }
    if t :| 0 <= t < |storages| && w in V.Inputs(storages[t]) {
      V.OwnedInput(storages, t, w);
    }
  }

  lemma OwnedWithout(storages: seq<V.StorageState>, external: Owners, given: seq<V.Id>, w: V.Id)
    requires forall i :: 0 <= i < |given| ==> given[i] < |storages|
    ensures w in V.Owned(V.Without(storages, given)) + external <==> RefersOutside(storages, external, given, w)
  {
    var rest := V.Without(storages, given);
    OwnedBy(rest, w);
    forall t | 0 <= t < |storages|
      ensures w in V.Inputs(rest[t]) <==> t !in given && w in V.Inputs(storages[t])
    {
    }
    hide V.Owned, V.Inputs, V.Without;
  }

  /** What is left of the references to a storage once some producers have given up theirs. */
  lemma LeftOutside(values: seq<V.TensorValue>, storages: seq<V.StorageState>, external: Owners, given: seq<V.Id>,
                    s: V.Id)
    requires forall i :: 0 <= i < |given| ==> given[i] < |storages|
    ensures SharedBy(values, V.Owned(V.Without(storages, given)) + external, s) > 0
       <==> OwnerOutside(values, storages, external, given, s)
  {
    var owners := V.Owned(V.Without(storages, given)) + external;
    forall w: V.Id ensures w in owners <==> RefersOutside(storages, external, given, w) {
      OwnedWithout(storages, external, given, w);
    }
    SharedSome(values, owners, s);
    hide SharedBy, RefersOutside, V.Owned, V.Without;
  }

  /** What a storage's producer owns is what formation follows. */
  function InputsAre(producer: Option<Producer>): Option<seq<Value>> {
    match producer
    case None => None
    case Some(p) => Some(p.inputs)
  }

  /** A value of the graph is a value in use, over the storage of its origin, whose producer it shares. */
  predicate LinkedAt(g: Graph, values: seq<V.TensorValue>, storages: seq<V.StorageState>, v: Value)
    requires v in g
  {
    && V.InUse(values, storages, v)
    && g[v].storageValue < |values| && values[g[v].storageValue].storage == values[v].storage
    && storages[values[v].storage].producer == InputsAre(g[v].producer)
  }

  /** The graph is that of the session's values in use; each storage has one origin. */
  ghost predicate Linked(g: Graph, values: seq<V.TensorValue>, storages: seq<V.StorageState>) {
    && (forall v :: v in g ==> LinkedAt(g, values, storages, v))
    && (forall v :: V.InUse(values, storages, v) ==> v in g)
    && forall v, w :: v in g && w in g && values[v].storage == values[w].storage ==>
         g[v].storageValue == g[w].storageValue
  }

  /** Computation k gives the storage of an origin what its producer's inputs come to. */
  lemma ComputedAt<A>(g: Graph, m: Materials<A>, f: Formed<A>, values: seq<V.TensorValue>,
                      storages: seq<V.StorageState>, k: nat)
    requires Lowered(g, m, f) && Linked(g, values, storages) && k < |f.computations|
    ensures var v := f.newlyComputed[k];
            && v in g && g[v].storageValue == v && g[v].producer.Some? && v < |values|
            && values[v].storage < |storages| && v in f.slots && f.slots[v] == f.computations[k].output
            && V.Inputs(storages[values[v].storage]) == g[v].producer.value.inputs
            && ActiveProducer(g, m, v) == g[v].producer
  {
    assert Lowers(g, m, f, k);
    assert Describes(g, m, f, f.computations[k].output);
    assert LinkedAt(g, values, storages, f.newlyComputed[k]);
  }

  lemma ComputedInside<A>(g: Graph, m: Materials<A>, f: Formed<A>, values: seq<V.TensorValue>,
                          storages: seq<V.StorageState>)
    requires Lowered(g, m, f) && Linked(g, values, storages)
    ensures |f.newlyComputed| == |f.computations|
    ensures forall i :: 0 <= i < |f.newlyComputed| ==> f.newlyComputed[i] < |values|
    ensures forall i :: 0 <= i < |f.newlyComputed| ==> values[f.newlyComputed[i]].storage < |storages|
  {
    forall i | 0 <= i < |f.newlyComputed|
      ensures f.newlyComputed[i] < |values| && values[f.newlyComputed[i]].storage < |storages|
    {
      ComputedAt(g, m, f, values, storages, i);
    }
    hide Linked;
  }

  /** Every storage is computed once. */
  lemma ComputedOnce<A>(g: Graph, m: Materials<A>, f: Formed<A>, values: seq<V.TensorValue>,
                        storages: seq<V.StorageState>, j: nat, k: nat)
    requires Lowered(g, m, f) && Linked(g, values, storages) && j < k < |f.computations|
    ensures f.newlyComputed[j] < |values| && f.newlyComputed[k] < |values|
    ensures values[f.newlyComputed[j]].storage != values[f.newlyComputed[k]].storage
  {
    ComputedAt(g, m, f, values, storages, j);
    ComputedAt(g, m, f, values, storages, k);
    assert f.computations[j].output < f.computations[k].output;
  }

  /** The operands of computation k over a storage are its producer's inputs over it. */
  lemma ComputedMatches<A>(g: Graph, m: Materials<A>, rank: Value -> nat, f: Formed<A>, values: seq<V.TensorValue>,
                           storages: seq<V.StorageState>, k: nat, v: Value)
    requires Admitted(g, m, rank) && Lowered(g, m, f) && Linked(g, values, storages) && k < |f.computations|
    requires v in g && g[v].storageValue == v && v in f.slots && f.newlyComputed[k] in g
    requires g[f.newlyComputed[k]].producer.Some? && v < |values|
    ensures Matches(values, f.values, g[f.newlyComputed[k]].producer.value.inputs, f.computations[k].inputs,
                    values[v].storage, f.slots[v])
  {
    var c, u := f.computations[k], f.newlyComputed[k];
    var inputs := g[u].producer.value.inputs;
    assert Lowers(g, m, f, k) && AdmittedValue(g, m, rank, u);
    forall i | 0 <= i < |inputs|
      ensures inputs[i] < |values|
      ensures values[inputs[i]].storage == values[v].storage <==> StorageOf(f.values, c.inputs[i]) == f.slots[v]
    {
      InputMatches(g, m, rank, f, values, storages, inputs[i], v);
    }
    hide Admitted, Linked, Lowered, StorageOf;
  }

  lemma InputMatches<A>(g: Graph, m: Materials<A>, rank: Value -> nat, f: Formed<A>, values: seq<V.TensorValue>,
                        storages: seq<V.StorageState>, input: Value, v: Value)
    requires Admitted(g, m, rank) && Lowered(g, m, f) && Linked(g, values, storages)
    requires v in g && g[v].storageValue == v && v in f.slots && input in g && input in f.slots && v < |values|
    ensures input < |values|
    ensures values[input].storage == values[v].storage <==> StorageOf(f.values, f.slots[input]) == f.slots[v]
  {
    assert Describes(g, m, f, f.slots[input]);
    assert LinkedAt(g, values, storages, input) && LinkedAt(g, values, storages, v);
  }

  /** The uses before computation k are the references that the first k producers hold. */
  lemma {:induction false} UsesHeld<A>(g: Graph, m: Materials<A>, rank: Value -> nat, f: Formed<A>,
                                       values: seq<V.TensorValue>, storages: seq<V.StorageState>, given: seq<V.Id>,
                                       v: Value, k: nat)
    requires Admitted(g, m, rank) && Lowered(g, m, f) && Linked(g, values, storages) && k <= |f.computations|
    requires v in g && g[v].storageValue == v && v in f.slots && v < |values|
    requires |given| == |f.newlyComputed| == |f.computations|
    requires forall i :: 0 <= i < |given| ==>
               f.newlyComputed[i] < |values| && given[i] == values[f.newlyComputed[i]].storage < |storages|
    ensures SharedBy(values, V.Owned(storages), values[v].storage)
         == SharedBy(values, V.Owned(V.Without(storages, given[..k])), values[v].storage)
            + UsesBefore(f.values, f.computations, k, f.slots[v])
  {
    hide Admitted, Lowered, Linked, SharedBy, V.Owned, Uses, Matches, V.Without;
    if k == 0 {
      V.WithoutNone(storages, given);
    } else {
      UsesHeld(g, m, rank, f, values, storages, given, v, k - 1);
      var u, s := f.newlyComputed[k - 1], values[v].storage;
      ComputedAt(g, m, f, values, storages, k - 1);
      ComputedMatches(g, m, rank, f, values, storages, k - 1, v);
      SharedUses(values, f.values, g[u].producer.value.inputs, f.computations[k - 1].inputs, s, f.slots[v]);
      forall j | 0 <= j < k - 1 ensures given[j] != given[k - 1] {
        ComputedOnce(g, m, f, values, storages, j, k - 1);
      }
      WithoutOneMore(storages, given, k - 1);
      SharedBoth(values, V.Owned(V.Without(storages, given[..k])), multiset(g[u].producer.value.inputs), s);
    }
  }

  lemma WithoutOneMore(storages: seq<V.StorageState>, given: seq<V.Id>, k: nat)
    requires k < |given| && forall i :: 0 <= i < |given| ==> given[i] < |storages|
    requires forall j :: 0 <= j < k ==> given[j] != given[k]
    ensures V.Owned(V.Without(storages, given[..k]))
         == V.Owned(V.Without(storages, given[..k + 1])) + multiset(V.Inputs(storages[given[k]]))
  {
    var before, t := V.Without(storages, given[..k]), given[k];
    Apart(given, k);
    V.WithoutMore(storages, given[..k], given[k]);
    NoInputs(before[t]);
    hide V.Owned, V.Without, V.Inputs;
    V.StorageUpdate(before, t, before[t].(producer := None));
  }

  lemma Apart(given: seq<V.Id>, k: nat)
    requires k < |given| && forall j :: 0 <= j < k ==> given[j] != given[k]
    ensures given[..k + 1] == given[..k] + [given[k]] && given[k] !in given[..k]
  {
  }

  lemma NoInputs(s: V.StorageState)
    ensures V.Inputs(s.(producer := None)) == []
  {
  }

  /**
   * With the counts of the session, a storage has owners besides the program's
   * own uses of it exactly if a caller, or the producer of a storage that the
   * program does not compute, refers to a value over it.
   */
  lemma OutsideReferences<A>(g: Graph, m: Materials<A>, rank: Value -> nat, f: Formed<A>, values: seq<V.TensorValue>,
                             storages: seq<V.StorageState>, external: Owners, v: Value)
    requires Admitted(g, m, rank) && Lowered(g, m, f) && Linked(g, values, storages)
    requires V.Counted(values, storages, external)
    requires v in g && g[v].storageValue == v && v in f.slots && v < |values| && values[v].storage < |storages|
    requires forall i :: 0 <= i < |f.newlyComputed| ==> f.newlyComputed[i] < |values|
    ensures UsesFrom(f.values, f.computations, 0, f.slots[v]) <= storages[values[v].storage].references
    ensures storages[values[v].storage].references > UsesFrom(f.values, f.computations, 0, f.slots[v])
       <==> OwnerOutside(values, storages, external, V.StoragesOf(values, f.newlyComputed), values[v].storage)
  {
    var s, n, given := values[v].storage, |f.computations|, V.StoragesOf(values, f.newlyComputed);
    hide Admitted, Linked, Lowered, SharedBy, V.Owned, V.Shared, V.Without, OwnerOutside, UsesFrom, UsesBefore;
    CountedParts(values, storages, external, s);
    SharedCounts(values, V.Owned(storages), external, s);
    ComputedInside(g, m, f, values, storages);
    UsesHeld(g, m, rank, f, values, storages, given, v, n);
    UsesAll(f.values, f.computations, f.slots[v]);
    assert given[..n] == given;
    var rest := V.Owned(V.Without(storages, given));
    SharedBoth(values, rest, external, s);
    LeftOutside(values, storages, external, given, s);
  }

  lemma UsesAll(values: seq<ProgramValue>, computations: seq<Computation>, s: Slot)
    ensures UsesBefore(values, computations, |computations|, s) == UsesFrom(values, computations, 0, s)
  {
    UsesSplit(values, computations, |computations|, s);
  }

  lemma CountedParts(values: seq<V.TensorValue>, storages: seq<V.StorageState>, external: Owners, s: V.Id)
    requires V.Counted(values, storages, external) && s < |storages|
    ensures storages[s].references == V.Shared(values, s)
    ensures forall v :: 0 <= v < |values| ==> values[v].references == V.Owned(storages)[v] + external[v]
  {
    assert V.StorageCounted(values, storages, s);
    forall v | 0 <= v < |values| ensures values[v].references == V.Owned(storages)[v] + external[v] {
      assert V.ValueCounted(values, storages, external, v);
    }
    hide V.Owned, V.Shared, V.Counted;
  }
}
