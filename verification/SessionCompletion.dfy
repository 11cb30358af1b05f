/**
 * Materializing a value of a session from admission to the release of what it
 * needs no longer: the results' producers give up their inputs, and the
 * payloads of storages that nobody refers to any more go back to the backend.
 */
module SessionCompletion {
  import opened Options
  import opened LinearMemory
  import opened Programs
  import opened ProgramFormation
  import opened InvocationUses
  import opened CpuBackend
  import opened SessionMaterialization
  import opened OutsideOwners
  import V = ValueOwnership

  /** A storage in use is marked resident exactly if its payload is recorded. */
  ghost predicate Marked(g: Graph, m: Materials<Allocation>, values: seq<V.TensorValue>,
                         storages: seq<V.StorageState>)
  {
    forall v :: v in g && g[v].storageValue == v ==>
      V.InUse(values, storages, v) && (storages[values[v].storage].resident <==> v in m && m[v].Resident?)
  }

  /** A session between operations: its graph, counts and table agree, and it has each live allocation once. */
  ghost predicate Sound(g: Graph, m: Materials<Allocation>, rank: Value -> nat, values: seq<V.TensorValue>,
                        storages: seq<V.StorageState>, live: map<nat, Allocation>)
  {
    && Admitted(g, m, rank) && Linked(g, values, storages) && Marked(g, m, values, storages)
    && Origins(g, m) && Residing(g, m, live) && Housed(m, live)
  }

  /** The graph of the values still in use; some have given up their producers. */
  function Remaining(g: Graph, values: seq<V.TensorValue>, storages: seq<V.StorageState>): Graph {
    map v | v in g && V.InUse(values, storages, v) ::
      if storages[values[v].storage].producer.None? then g[v].(producer := None) else g[v]
  }

  function KeptIn(g: Graph, m: Materials<Allocation>): Materials<Allocation> { map v | v in m && v in g :: m[v] }

  /** The owners of each storage, as the counts of the session give them. */
  function References(g: Graph, values: seq<V.TensorValue>, storages: seq<V.StorageState>): map<Value, nat> {
    map v | v in g && V.InUse(values, storages, v) :: storages[values[v].storage].references
  }

  /** What happened to the session's counts: some producers were given up, and then what nobody referred to. */
  ghost predicate GaveUp(values: seq<V.TensorValue>, storages: seq<V.StorageState>, given: seq<V.Id>,
                         values': seq<V.TensorValue>, storages': seq<V.StorageState>)
  {
    && (forall i :: 0 <= i < |given| ==> given[i] < |storages|)
    && V.SamePlaces(values, values') && V.Fades(V.Without(storages, given), storages')
  }

  /** A storage still in use lost at most its producer, and that only if it was given up. */
  lemma StillUsed(values: seq<V.TensorValue>, storages: seq<V.StorageState>, given: seq<V.Id>,
                  values': seq<V.TensorValue>, storages': seq<V.StorageState>, v: Value)
    requires GaveUp(values, storages, given, values', storages') && V.InUse(values', storages', v)
    ensures V.InUse(values, storages, v) && values'[v].storage == values[v].storage
    ensures var s := values[v].storage;
            && storages'[s].resident == storages[s].resident
            && storages'[s].producer == if s in given then None else storages[s].producer
  {
    hide V.Without;
    assert V.FadesAt(V.Without(storages, given), storages', values'[v].storage);
  }

  lemma LinkedRemaining(g: Graph, values: seq<V.TensorValue>, storages: seq<V.StorageState>, given: seq<V.Id>,
                        values': seq<V.TensorValue>, storages': seq<V.StorageState>)
    requires Linked(g, values, storages) && GaveUp(values, storages, given, values', storages')
    ensures Linked(Remaining(g, values', storages'), values', storages')
  {
    var g' := Remaining(g, values', storages');
    forall v | v in g' ensures LinkedAt(g', values', storages', v) {
      StillUsed(values, storages, given, values', storages', v);
      assert LinkedAt(g, values, storages, v);
    }
    forall v | V.InUse(values', storages', v) ensures v in g' {
      StillUsed(values, storages, given, values', storages', v);
    }
    forall v, w | v in g' && w in g' && values'[v].storage == values'[w].storage
      ensures g'[v].storageValue == g'[w].storageValue
    {
      StillUsed(values, storages, given, values', storages', v);
      StillUsed(values, storages, given, values', storages', w);
    }
    hide GaveUp, LinkedAt;
  }

  /** A storage is still in use only if somebody besides the producers given up refers to it. */
  lemma StillOwned(values: seq<V.TensorValue>, storages: seq<V.StorageState>, external: Owners, given: seq<V.Id>,
                   values': seq<V.TensorValue>, storages': seq<V.StorageState>, s: V.Id)
    requires GaveUp(values, storages, given, values', storages') && V.Counted(values', storages', external)
    requires s < |storages'| && storages'[s].references > 0
    ensures OwnerOutside(values, storages, external, given, s)
  {
    hide V.Owned, V.Shared, V.Without, V.Inputs;
    assert V.StorageCounted(values', storages', s);
    var w := V.Sharer(values', s);
    assert V.ValueCounted(values', storages', external, w);
    if w !in external {
      var t := V.Owner(storages', w);
      OwnerStays(values, storages, external, given, values', storages', t, w);
    }
    assert RefersOutside(storages, external, given, w);
    hide GaveUp, RefersOutside;
  }

  lemma OwnerStays(values: seq<V.TensorValue>, storages: seq<V.StorageState>, external: Owners, given: seq<V.Id>,
                   values': seq<V.TensorValue>, storages': seq<V.StorageState>, t: V.Id, w: V.Id)
    requires GaveUp(values, storages, given, values', storages') && V.Counted(values', storages', external)
    requires t < |storages'| && w in V.Inputs(storages'[t])
    ensures t < |storages| && t !in given && w in V.Inputs(storages[t])
  {
    assert V.StorageCounted(values', storages', t);
    V.OwnerInUse(storages'[t], w);
    assert V.FadesAt(V.Without(storages, given), storages', t);
    hide V.Without, V.Counted, V.Owned, V.Shared;
  }

  /** What a producer owns is in use. */
  lemma InputInUse(values: seq<V.TensorValue>, storages: seq<V.StorageState>, external: Owners, s: V.Id, w: V.Id)
    requires V.Counted(values, storages, external) && s < |storages| && w in V.Inputs(storages[s])
    ensures V.InUse(values, storages, w)
  {
    hide V.Owned, V.Shared, V.Inputs;
    V.OwnedInput(storages, s, w);
    assert V.StorageCounted(values, storages, s) && w < |values|;
    assert V.ValueCounted(values, storages, external, w);
    assert V.StorageCounted(values, storages, values[w].storage);
    V.SharedAtLeast(values, w);
    hide V.Counted;
  }

  /** The computed storages still in use have their payloads recorded. */
  ghost predicate ResultsKept(g: Graph, m: Materials<Allocation>, values: seq<V.TensorValue>, given: seq<V.Id>,
                              storages': seq<V.StorageState>)
  {
    forall v :: v in g && g[v].storageValue == v && V.InUse(values, storages', v) && values[v].storage in given ==>
      v in m && m[v].Resident?
  }

  lemma RemainingAdmitted(g: Graph, m: Materials<Allocation>, rank: Value -> nat, values: seq<V.TensorValue>,
                          storages: seq<V.StorageState>, external: Owners, given: seq<V.Id>,
                          values': seq<V.TensorValue>, storages': seq<V.StorageState>)
    requires Admitted(g, m, rank) && Linked(g, values, storages)
    requires GaveUp(values, storages, given, values', storages') && V.Counted(values', storages', external)
    requires ResultsKept(g, m, values', given, storages')
    ensures Admitted(Remaining(g, values', storages'), KeptIn(Remaining(g, values', storages'), m), rank)
  {
    var g' := Remaining(g, values', storages');
    forall v | v in g' ensures AdmittedValue(g', KeptIn(g', m), rank, v) {
      RemainingAdmittedAt(g, m, rank, values, storages, external, given, values', storages', v);
    }
    hide Linked, GaveUp, V.Counted, ResultsKept, AdmittedValue;
  }

  lemma RemainingAdmittedAt(g: Graph, m: Materials<Allocation>, rank: Value -> nat, values: seq<V.TensorValue>,
                            storages: seq<V.StorageState>, external: Owners, given: seq<V.Id>,
                            values': seq<V.TensorValue>, storages': seq<V.StorageState>, v: Value)
    requires Admitted(g, m, rank) && Linked(g, values, storages)
    requires GaveUp(values, storages, given, values', storages') && V.Counted(values', storages', external)
    requires ResultsKept(g, m, values', given, storages') && v in Remaining(g, values', storages')
    ensures AdmittedValue(Remaining(g, values', storages'), KeptIn(Remaining(g, values', storages'), m), rank, v)
  {
    assert AdmittedValue(g, m, rank, v) && LinkedAt(g, values, storages, v);
    StillUsed(values, storages, given, values', storages', v);
    RemainingInputs(g, values, storages, external, given, values', storages', v);
    hide GaveUp, V.Counted, Admitted;
  }

  /** The operands of a producer that is still there are still in use. */
  lemma RemainingInputs(g: Graph, values: seq<V.TensorValue>, storages: seq<V.StorageState>, external: Owners,
                        given: seq<V.Id>, values': seq<V.TensorValue>, storages': seq<V.StorageState>, v: Value)
    requires Linked(g, values, storages) && V.Counted(values', storages', external)
    requires GaveUp(values, storages, given, values', storages') && v in Remaining(g, values', storages')
    ensures var g' := Remaining(g, values', storages');
            g'[v].producer.Some? ==>
              forall i :: 0 <= i < |g'[v].producer.value.inputs| ==> g'[v].producer.value.inputs[i] in g'
  {
    var g' := Remaining(g, values', storages');
    LinkedRemaining(g, values, storages, given, values', storages');
    assert LinkedAt(g', values', storages', v);
    if g'[v].producer.Some? {
      var inputs := g'[v].producer.value.inputs;
      forall i | 0 <= i < |inputs| ensures inputs[i] in g' {
        InputInUse(values', storages', external, values'[v].storage, inputs[i]);
      }
    }
    hide GaveUp, V.Counted, Remaining;
  }

  /** Giving up producers and payloads that nobody needs changes the meaning of no value still in use. */
  lemma {:induction false} RemainingMeaning(g: Graph, m: Materials<Allocation>, rank: Value -> nat, apply: Semantics,
                                            read: Allocation -> Bytes, values: seq<V.TensorValue>,
                                            storages: seq<V.StorageState>, external: Owners, given: seq<V.Id>,
                                            values': seq<V.TensorValue>, storages': seq<V.StorageState>, v: Value)
    requires Admitted(g, m, rank) && Linked(g, values, storages)
    requires GaveUp(values, storages, given, values', storages') && V.Counted(values', storages', external)
    requires ResultsKept(g, m, values', given, storages') && v in Remaining(g, values', storages')
    ensures var g' := Remaining(g, values', storages');
            Admitted(g', KeptIn(g', m), rank)
            && Meaning(g', KeptIn(g', m), rank, apply, read, v) == Meaning(g, m, rank, apply, read, v)
    decreases rank(v), 0
  {
    hide Linked, GaveUp, V.Counted, ResultsKept;
    RemainingAdmitted(g, m, rank, values, storages, external, given, values', storages');
    var g' := Remaining(g, values', storages');
    var m' := KeptIn(g', m);
    assert AdmittedValue(g, m, rank, v) && AdmittedValue(g', m', rank, v);
    if g[v].storageValue != v {
      RemainingMeaning(g, m, rank, apply, read, values, storages, external, given, values', storages',
                       g[v].storageValue);
    } else {
      RemainingProducer(g, m, values, storages, given, values', storages', v);
      if ActiveProducer(g, m, v).Some? {
        var inputs := ActiveProducer(g, m, v).value.inputs;
        RemainingOperands(g, m, rank, apply, read, values, storages, external, given, values', storages', v, inputs,
                          |inputs|);
      }
    }
  }

  lemma RemainingProducer(g: Graph, m: Materials<Allocation>, values: seq<V.TensorValue>,
                          storages: seq<V.StorageState>, given: seq<V.Id>, values': seq<V.TensorValue>,
                          storages': seq<V.StorageState>, v: Value)
    requires Linked(g, values, storages) && GaveUp(values, storages, given, values', storages')
    requires ResultsKept(g, m, values', given, storages') && v in Remaining(g, values', storages')
    requires g[v].storageValue == v
    ensures var g' := Remaining(g, values', storages');
            ActiveProducer(g', KeptIn(g', m), v) == ActiveProducer(g, m, v)
  {
    StillUsed(values, storages, given, values', storages', v);
    assert LinkedAt(g, values, storages, v);
    hide GaveUp, Linked;
  }

  lemma {:induction false} RemainingOperands(g: Graph, m: Materials<Allocation>, rank: Value -> nat, apply: Semantics,
                                             read: Allocation -> Bytes, values: seq<V.TensorValue>,
                                             storages: seq<V.StorageState>, external: Owners, given: seq<V.Id>,
                                             values': seq<V.TensorValue>, storages': seq<V.StorageState>, v: Value,
                                             inputs: seq<Value>, n: nat)
    requires Admitted(g, m, rank) && Linked(g, values, storages) && n <= |inputs|
    requires GaveUp(values, storages, given, values', storages') && V.Counted(values', storages', external)
    requires ResultsKept(g, m, values', given, storages')
    requires forall i :: 0 <= i < |inputs| ==>
               inputs[i] in g && inputs[i] in Remaining(g, values', storages') && rank(inputs[i]) < rank(v)
    ensures var g' := Remaining(g, values', storages');
            Admitted(g', KeptIn(g', m), rank)
            && Inputs(g', KeptIn(g', m), rank, apply, read, v, inputs, n)
               == Inputs(g, m, rank, apply, read, v, inputs, n)
    decreases rank(v), 0, n
  {
    hide Linked, GaveUp, V.Counted, ResultsKept, Admitted, Meaning;
    RemainingAdmitted(g, m, rank, values, storages, external, given, values', storages');
    if n > 0 {
      RemainingOperands(g, m, rank, apply, read, values, storages, external, given, values', storages', v, inputs,
                        n - 1);
      RemainingMeaning(g, m, rank, apply, read, values, storages, external, given, values', storages', inputs[n - 1]);
      RemainingShape(g, values', storages', inputs[n - 1]);
    }
    hide Remaining;
  }

  lemma RemainingShape(g: Graph, values: seq<V.TensorValue>, storages: seq<V.StorageState>, v: Value)
    requires v in Remaining(g, values, storages)
    ensures v in g && Remaining(g, values, storages)[v].shape == g[v].shape
  {
  }

  /** What a run recorded is resident, and was before or belongs to a slot. */
  lemma RecordedResident(m: Materials<Allocation>, f: Formed<Allocation>, table: Materials<Allocation>, v: Value)
    requires RecordedFrom(m, f, table)
    ensures v in m && m[v].Resident? ==> v in table && table[v].Resident?
    ensures v in table && table[v].Resident? ==> (v in m && m[v].Resident?) || v in f.slots
  {
  }

  /** Some storages hold a payload now, as well as those that did. */
  predicate MarkedAlso(before: seq<V.StorageState>, after: seq<V.StorageState>, more: set<V.Id>) {
    && |before| == |after|
    && forall s :: 0 <= s < |before| ==>
         after[s] == if s in more then before[s].(resident := true) else before[s]
  }

  /** The storages of the values that are resident in a table. */
  function ResidentAmong(values: seq<V.TensorValue>, table: Materials<Allocation>, ids: seq<Value>): set<V.Id> {
    set v | v in ids && v < |values| && v in table && table[v].Resident? :: values[v].storage
  }

  /** Records that the results of a run have payloads. */
  method MarkResident(session: V.SessionValues, table: Materials<Allocation>, ids: seq<Value>, ghost external: Owners)
    requires session.Consistent(external)
    requires forall i :: 0 <= i < |ids| ==> V.InUse(session.values, session.storages, ids[i])
    modifies session
    ensures session.Consistent(external) && session.values == old(session.values)
    ensures MarkedAlso(old(session.storages), session.storages,
                       ResidentAmong(old(session.values), table, ids))
  {
    hide session.Consistent;
    for i := 0 to |ids|
      invariant session.Consistent(external) && session.values == old(session.values)
      invariant MarkedAlso(old(session.storages), session.storages, ResidentAmong(session.values, table, ids[..i]))
    {
      assert ids[..i + 1] == ids[..i] + [ids[i]];
      ResidentMore(session.values, table, ids[..i], ids[i]);
      assert V.InUse(old(session.values), old(session.storages), ids[i]);
      if ids[i] in table && table[ids[i]].Resident? {
        session.SetResident(session.values[ids[i]].storage, external);
      }
    }
    assert ids[..|ids|] == ids;
  }

  lemma ResidentMore(values: seq<V.TensorValue>, table: Materials<Allocation>, ids: seq<Value>, v: Value)
    ensures ResidentAmong(values, table, ids + [v])
         == ResidentAmong(values, table, ids)
            + if v < |values| && v in table && table[v].Resident? then {values[v].storage} else {}
  {
  }

  /** Marking alone moves no value and no producer. */
  lemma MarkedLinked(g: Graph, values: seq<V.TensorValue>, before: seq<V.StorageState>, after: seq<V.StorageState>,
                     more: set<V.Id>)
    requires Linked(g, values, before) && MarkedAlso(before, after, more)
    ensures Linked(g, values, after)
  {
    forall v | v in g ensures LinkedAt(g, values, after, v) {
      assert LinkedAt(g, values, before, v);
    }
    forall v | V.InUse(values, after, v) ensures v in g {
      assert V.InUse(values, before, v);
    }
  }

  /** After marking the results, the marks agree with the table. */
  lemma MarkedNow(g: Graph, m: Materials<Allocation>, f: Formed<Allocation>, table: Materials<Allocation>,
                  values: seq<V.TensorValue>, before: seq<V.StorageState>, after: seq<V.StorageState>)
    requires Linked(g, values, before) && Marked(g, m, values, before) && RecordedFrom(m, f, table)
    requires Origins(g, table) && Lowered(g, m, f)
    requires MarkedAlso(before, after, ResidentAmong(values, table, f.valuesBySlot))
    ensures Marked(g, table, values, after)
  {
    hide RecordedFrom;
    forall v | v in g && g[v].storageValue == v
      ensures V.InUse(values, after, v) && (after[values[v].storage].resident <==> v in table && table[v].Resident?)
    {
      assert LinkedAt(g, values, before, v);
      RecordedResident(m, f, table, v);
      if v in f.slots {
        SlotValue(g, m, f, v);
        assert v in f.valuesBySlot;
      }
      OneOrigin(g, m, table, values, before, f.valuesBySlot, v);
    }
    hide Linked, Lowered, Marked;
  }

  /** A resident value over the storage of an origin is that origin. */
  lemma OneOrigin(g: Graph, m: Materials<Allocation>, table: Materials<Allocation>, values: seq<V.TensorValue>,
                  storages: seq<V.StorageState>, ids: seq<Value>, v: Value)
    requires Linked(g, values, storages) && Origins(g, table) && v in g && g[v].storageValue == v
    ensures v < |values| && values[v].storage < |storages|
    ensures values[v].storage in ResidentAmong(values, table, ids) <==> v in ids && v in table && table[v].Resident?
  {
    assert LinkedAt(g, values, storages, v);
    forall w | w in table && w < |values| && values[w].storage == values[v].storage ensures w == v {
      assert w in g && g[w].storageValue == w;
    }
    hide Linked;
  }

  /** The counts that a program is run with are those of the session: outside owners are owners outside. */
  lemma OwnedOutsideFrom(g: Graph, m: Materials<Allocation>, rank: Value -> nat, f: Formed<Allocation>,
                         values: seq<V.TensorValue>, storages: seq<V.StorageState>, external: Owners, v: Value)
    requires Admitted(g, m, rank) && Lowered(g, m, f) && Linked(g, values, storages)
    requires V.Counted(values, storages, external) && v in g && g[v].storageValue == v && v in f.slots
    ensures v < |values| && forall i :: 0 <= i < |f.newlyComputed| ==> f.newlyComputed[i] < |values|
    ensures OwnedOutside(f, References(g, values, storages), v)
       <==> OwnerOutside(values, storages, external, V.StoragesOf(values, f.newlyComputed), values[v].storage)
  {
    assert LinkedAt(g, values, storages, v);
    ComputedInside(g, m, f, values, storages);
    OutsideReferences(g, m, rank, f, values, storages, external, v);
    hide Lowered, Linked, V.Counted, OwnerOutside, UsesFrom;
  }

  /** The results that are still in use once their producers are given up were retained by the run. */
  lemma ResultsRetained(g: Graph, m: Materials<Allocation>, rank: Value -> nat, f: Formed<Allocation>,
                        table: Materials<Allocation>, values: seq<V.TensorValue>, storages: seq<V.StorageState>,
                        marked: seq<V.StorageState>, external: Owners, given: seq<V.Id>,
                        values': seq<V.TensorValue>, storages': seq<V.StorageState>)
    requires Admitted(g, m, rank) && Lowered(g, m, f) && Linked(g, values, storages) && Linked(g, values, marked)
    requires V.Counted(values, storages, external) && V.Counted(values', storages', external)
    requires V.Places(values, marked, f.newlyComputed) && given == V.StoragesOf(values, f.newlyComputed)
    requires GaveUp(values, marked, given, values', storages')
    requires SameProducers(storages, marked)
    requires forall v :: v in g && g[v].storageValue == v && OwnedOutside(f, References(g, values, storages), v) ==>
               v in table && table[v].Resident?
    ensures ResultsKept(g, table, values', given, storages')
  {
    forall v | v in g && g[v].storageValue == v && V.InUse(values', storages', v) && values'[v].storage in given
      ensures v in table && table[v].Resident?
    {
      ResultRetained(g, m, f, values, marked, v, given);
      StillUsed(values, marked, given, values', storages', v);
      StillOwned(values, marked, external, given, values', storages', values[v].storage);
      OutsideSame(values, storages, marked, external, given, values[v].storage);
      OwnedOutsideFrom(g, m, rank, f, values, storages, external, v);
    }
    hide Linked, Lowered, GaveUp, V.Counted, OwnerOutside, OwnedOutside, Admitted, SameProducers;
  }

  predicate SameProducers(before: seq<V.StorageState>, after: seq<V.StorageState>) {
    |before| == |after| && forall s :: 0 <= s < |before| ==> after[s].producer == before[s].producer
  }

  lemma OutsideSame(values: seq<V.TensorValue>, before: seq<V.StorageState>, after: seq<V.StorageState>,
                    external: Owners, given: seq<V.Id>, s: V.Id)
    requires SameProducers(before, after)
    ensures OwnerOutside(values, after, external, given, s) ==> OwnerOutside(values, before, external, given, s)
  {
    forall w | RefersOutside(after, external, given, w) ensures RefersOutside(before, external, given, w) {
      if w !in external {
        var t :| 0 <= t < |after| && t !in given && w in V.Inputs(after[t]);
        assert w in V.Inputs(before[t]);
      }
    }
    hide RefersOutside;
  }

  /** An origin over a computed storage was lowered. */
  lemma ResultRetained(g: Graph, m: Materials<Allocation>, f: Formed<Allocation>, values: seq<V.TensorValue>,
                       storages: seq<V.StorageState>, v: Value, given: seq<V.Id>)
    requires Lowered(g, m, f) && Linked(g, values, storages) && V.Places(values, storages, f.newlyComputed)
    requires given == V.StoragesOf(values, f.newlyComputed)
    requires v in g && g[v].storageValue == v
    ensures v < |values| && (values[v].storage in given ==> v in f.slots)
  {
    assert LinkedAt(g, values, storages, v);
    if values[v].storage in given {
      var k :| 0 <= k < |given| && given[k] == values[v].storage;
      ComputedInside(g, m, f, values, storages);
      ComputedAt(g, m, f, values, storages, k);
    }
    hide Lowered;
  }

  /** The allocations of the payloads of some storages. */
  function PayloadIds(values: seq<V.TensorValue>, table: Materials<Allocation>, released: seq<V.Id>): set<nat> {
    set v | v in table && table[v].Resident? && v < |values| && values[v].storage in released ::
      table[v].allocation.id
  }

  /** The value that the payload of a storage is recorded for. */
  predicate PayloadOf(values: seq<V.TensorValue>, table: Materials<Allocation>, s: V.Id, v: Value) {
    v in table && table[v].Resident? && v < |values| && values[v].storage == s
  }

  ghost predicate HasPayload(values: seq<V.TensorValue>, table: Materials<Allocation>, s: V.Id) {
    exists v :: PayloadOf(values, table, s, v)
  }

  lemma PayloadsMore(values: seq<V.TensorValue>, table: Materials<Allocation>, released: seq<V.Id>, s: V.Id, v: Value)
    requires PayloadOf(values, table, s, v) && forall w :: PayloadOf(values, table, s, w) ==> w == v
    ensures PayloadIds(values, table, released + [s])
         == PayloadIds(values, table, released) + {table[v].allocation.id}
  {
    var ids := PayloadIds(values, table, released + [s]);
    forall id | id in ids ensures id in PayloadIds(values, table, released) + {table[v].allocation.id} {
      var w :| w in table && table[w].Resident? && w < |values| && values[w].storage in released + [s]
               && table[w].allocation.id == id;
      assert values[w].storage == s ==> PayloadOf(values, table, s, w);
    }
  }

  /** Each of some storages has a live payload, recorded for one value. */
  ghost predicate Payloads(values: seq<V.TensorValue>, table: Materials<Allocation>, released: seq<V.Id>,
                           live: map<nat, Allocation>)
  {
    && (forall i :: 0 <= i < |released| ==> HasPayload(values, table, released[i]))
    && (forall v, w, s :: PayloadOf(values, table, s, v) && PayloadOf(values, table, s, w) ==> v == w)
    && forall v, s :: PayloadOf(values, table, s, v) ==>
         var al := table[v].allocation; al.id in live && live[al.id] == al
  }

  /** Gives the payloads of some storages back to the backend. */
  method ReleasePayloads(allocator: LinearMemoryAllocator, values: seq<V.TensorValue>, table: Materials<Allocation>,
                         released: seq<V.Id>)
    requires allocator.Valid() && Payloads(values, table, released, allocator.outstanding)
    modifies allocator
    ensures allocator.Valid()
    ensures allocator.outstanding == old(allocator.outstanding) - PayloadIds(values, table, released)
  {
    hide PayloadIds;
    NoPayloads(values, table);
    for i := 0 to |released|
      invariant allocator.Valid()
      invariant allocator.outstanding == old(allocator.outstanding) - PayloadIds(values, table, released[..i])
    {
      assert HasPayload(values, table, released[i]);
      assert released[..i + 1] == released[..i] + [released[i]];
      var v :| v in table && PayloadOf(values, table, released[i], v);
      PayloadsMore(values, table, released[..i], released[i], v);
      ReleasePayload(allocator, table[v].allocation);
    }
    assert released[..|released|] == released;
  }

  lemma NoPayloads(values: seq<V.TensorValue>, table: Materials<Allocation>)
    ensures PayloadIds(values, table, []) == {}
  {
  }

  method ReleasePayload(allocator: LinearMemoryAllocator, al: Allocation)
    requires allocator.Valid() && (al.id in allocator.outstanding ==> allocator.outstanding[al.id] == al)
    modifies allocator
    ensures allocator.Valid() && allocator.outstanding == old(allocator.outstanding) - {al.id}
  {
    var ok := allocator.Release(al);
  }

  /** A storage with a payload has it recorded for its origin, and for nothing else. */
  lemma PayloadRecorded(g: Graph, table: Materials<Allocation>, values: seq<V.TensorValue>,
                        storages: seq<V.StorageState>, external: Owners, s: V.Id)
    returns (v: Value)
    requires Linked(g, values, storages) && Marked(g, table, values, storages) && Origins(g, table)
    requires V.Counted(values, storages, external) && s < |storages| && storages[s].resident
    ensures PayloadOf(values, table, s, v)
  {
    hide V.Owned, V.Shared, V.Inputs;
    assert V.StorageCounted(values, storages, s);
    var w := V.Sharer(values, s);
    assert V.InUse(values, storages, w) && LinkedAt(g, values, storages, w);
    v := g[w].storageValue;
    assert V.InUse(values, storages, v);
    hide V.Counted;
  }

  lemma PayloadsApart(g: Graph, table: Materials<Allocation>, values: seq<V.TensorValue>,
                      storages: seq<V.StorageState>)
    requires Linked(g, values, storages) && Origins(g, table)
    ensures forall v, w, s :: PayloadOf(values, table, s, v) && PayloadOf(values, table, s, w) ==> v == w
  {
    forall v: Value, w: Value, s: V.Id | PayloadOf(values, table, s, v) && PayloadOf(values, table, s, w)
      ensures v == w
    {
      assert v in g && w in g && values[v].storage == values[w].storage;
    }
    hide LinkedAt;
  }

  /** What the payloads given back leave: one live allocation for each storage in use that has a payload. */
  lemma PayloadsLeft(g: Graph, table: Materials<Allocation>, values: seq<V.TensorValue>,
                     storages: seq<V.StorageState>, external: Owners, given: seq<V.Id>,
                     values': seq<V.TensorValue>, storages': seq<V.StorageState>, released: seq<V.Id>,
                     live: map<nat, Allocation>, live': map<nat, Allocation>)
    requires Linked(g, values, storages) && Marked(g, table, values, storages) && Origins(g, table)
    requires Residing(g, table, live) && Housed(table, live) && V.Counted(values', storages', external)
    requires GaveUp(values, storages, given, values', storages') && V.GivenBack(storages, storages', released)
    requires live' == live - PayloadIds(values, table, released)
    ensures var g' := Remaining(g, values', storages');
            var m' := KeptIn(g', table);
            Origins(g', m') && Marked(g', m', values', storages') && Residing(g', m', live') && Housed(m', live')
  {
    MarkedRemaining(g, table, values, storages, given, values', storages');
    PayloadsReside(g, table, values, storages, given, values', storages', released, live, live');
    PayloadsHoused(g, table, values, storages, external, given, values', storages', released, live, live');
    RemainingOrigins(g, table, values', storages');
    hide *;
  }

  lemma RemainingOrigins(g: Graph, table: Materials<Allocation>, values: seq<V.TensorValue>,
                         storages: seq<V.StorageState>)
    requires Origins(g, table)
    ensures Origins(Remaining(g, values, storages), KeptIn(Remaining(g, values, storages), table))
  {
  }

  lemma PayloadsReside(g: Graph, table: Materials<Allocation>, values: seq<V.TensorValue>,
                       storages: seq<V.StorageState>, given: seq<V.Id>, values': seq<V.TensorValue>,
                       storages': seq<V.StorageState>, released: seq<V.Id>, live: map<nat, Allocation>,
                       live': map<nat, Allocation>)
    requires Linked(g, values, storages) && Marked(g, table, values, storages) && Origins(g, table)
    requires Residing(g, table, live) && Housed(table, live)
    requires GaveUp(values, storages, given, values', storages') && V.GivenBack(storages, storages', released)
    requires live' == live - PayloadIds(values, table, released)
    ensures Residing(Remaining(g, values', storages'), KeptIn(Remaining(g, values', storages'), table), live')
  {
    var g' := Remaining(g, values', storages');
    var m' := KeptIn(g', table);
    forall v | v in g' && v in m' && m'[v].Resident?
      ensures var al := m'[v].allocation;
              al.id in live' && live'[al.id] == al && al.byteLength == ByteLength(g'[v].shape)
    {
      PayloadStays(g, table, values, storages, given, values', storages', released, live, v);
      RemainingShape(g, values', storages', v);
    }
    hide GaveUp, V.GivenBack, PayloadIds, Linked, ByteLength, Marked, Housed, Remaining, Origins;
  }

  lemma MarkedRemaining(g: Graph, table: Materials<Allocation>, values: seq<V.TensorValue>,
                        storages: seq<V.StorageState>, given: seq<V.Id>, values': seq<V.TensorValue>,
                        storages': seq<V.StorageState>)
    requires Marked(g, table, values, storages) && GaveUp(values, storages, given, values', storages')
    ensures var g' := Remaining(g, values', storages');
            Marked(g', KeptIn(g', table), values', storages')
  {
    var g' := Remaining(g, values', storages');
    var m' := KeptIn(g', table);
    forall v | v in g' && g'[v].storageValue == v
      ensures V.InUse(values', storages', v)
              && (storages'[values'[v].storage].resident <==> v in m' && m'[v].Resident?)
    {
      StillUsed(values, storages, given, values', storages', v);
    }
    hide GaveUp;
  }

  lemma PayloadStays(g: Graph, table: Materials<Allocation>, values: seq<V.TensorValue>,
                     storages: seq<V.StorageState>, given: seq<V.Id>, values': seq<V.TensorValue>,
                     storages': seq<V.StorageState>, released: seq<V.Id>, live: map<nat, Allocation>, v: Value)
    requires Linked(g, values, storages) && Marked(g, table, values, storages) && Origins(g, table)
    requires Housed(table, live) && GaveUp(values, storages, given, values', storages')
    requires V.GivenBack(storages, storages', released)
    requires v in Remaining(g, values', storages') && v in table && table[v].Resident?
    ensures table[v].allocation.id !in PayloadIds(values, table, released)
  {
    StillUsed(values, storages, given, values', storages', v);
    var id := table[v].allocation.id;
    forall w | w in table && table[w].Resident? && w < |values| && values[w].storage in released
      ensures table[w].allocation.id != id
    {
      assert Houses(table, v, id) && Houses(table, w, table[w].allocation.id);
    }
    hide GaveUp, Linked;
  }

  lemma PayloadsHoused(g: Graph, table: Materials<Allocation>, values: seq<V.TensorValue>,
                       storages: seq<V.StorageState>, external: Owners, given: seq<V.Id>,
                       values': seq<V.TensorValue>, storages': seq<V.StorageState>, released: seq<V.Id>,
                       live: map<nat, Allocation>, live': map<nat, Allocation>)
    requires Linked(g, values, storages) && Marked(g, table, values, storages) && Origins(g, table)
    requires Housed(table, live) && V.Counted(values', storages', external)
    requires GaveUp(values, storages, given, values', storages') && V.GivenBack(storages, storages', released)
    requires live' == live - PayloadIds(values, table, released)
    ensures Housed(KeptIn(Remaining(g, values', storages'), table), live')
  {
    var m' := KeptIn(Remaining(g, values', storages'), table);
    forall id | id in live' ensures exists v :: Houses(m', v, id) {
      var v :| Houses(table, v, id);
      PayloadUsed(g, table, values, storages, external, given, values', storages', released, v, id);
      assert Houses(m', v, id);
    }
    KeptHoused(Remaining(g, values', storages'), table);
    hide *;
  }

  lemma KeptHoused(g: Graph, m: Materials<Allocation>)
    requires forall v, w, id :: Houses(m, v, id) && Houses(m, w, id) ==> v == w
    ensures forall v, w, id :: Houses(KeptIn(g, m), v, id) && Houses(KeptIn(g, m), w, id) ==> v == w
  {
    forall v: Value, w: Value, id: nat | Houses(KeptIn(g, m), v, id) && Houses(KeptIn(g, m), w, id) ensures v == w {
      assert Houses(m, v, id) && Houses(m, w, id);
    }
  }

  /** A payload that was not given back belongs to a storage still in use. */
  lemma PayloadUsed(g: Graph, table: Materials<Allocation>, values: seq<V.TensorValue>,
                    storages: seq<V.StorageState>, external: Owners, given: seq<V.Id>,
                    values': seq<V.TensorValue>, storages': seq<V.StorageState>, released: seq<V.Id>, v: Value,
                    id: nat)
    requires Linked(g, values, storages) && Marked(g, table, values, storages) && Origins(g, table)
    requires V.Counted(values', storages', external) && V.GivenBack(storages, storages', released)
    requires GaveUp(values, storages, given, values', storages')
    requires Houses(table, v, id) && id !in PayloadIds(values, table, released)
    ensures v in Remaining(g, values', storages')
  {
    hide V.Owned, V.Shared, V.Without, V.Inputs;
    assert V.InUse(values, storages, v);
    assert v < |values| && values[v].storage !in released;
    assert V.StorageCounted(values', storages', values[v].storage);
    hide V.Counted, Linked;
  }

  /** Every value still in use means what it meant. */
  ghost predicate MeaningsKept(g: Graph, m: Materials<Allocation>, bytes: seq<int>, g': Graph,
                               m': Materials<Allocation>, bytes': seq<int>, rank: Value -> nat, apply: Semantics)
    requires Admitted(g, m, rank) && Admitted(g', m', rank)
  {
    forall v :: v in g' ==>
      v in g && Meaning(g', m', rank, apply, Reading(bytes'), v) == Meaning(g, m, rank, apply, Reading(bytes), v)
  }

  /** Whatever has a payload now and had none before has given up its producer. */
  predicate ProducersGiven(m: Materials<Allocation>, g': Graph, m': Materials<Allocation>) {
    forall v :: v in g' && v in m' && m'[v].Resident? && !(v in m && m[v].Resident?) ==> g'[v].producer.None?
  }

  lemma RemainingMeanings(g: Graph, m: Materials<Allocation>, bytes: seq<int>, table: Materials<Allocation>,
                          bytes': seq<int>, rank: Value -> nat, apply: Semantics, values: seq<V.TensorValue>,
                          storages: seq<V.StorageState>, external: Owners, given: seq<V.Id>,
                          values': seq<V.TensorValue>, storages': seq<V.StorageState>)
    requires Admitted(g, m, rank) && Admitted(g, table, rank) && Linked(g, values, storages)
    requires SameMeanings(g, rank, apply, m, bytes, table, bytes')
    requires GaveUp(values, storages, given, values', storages') && V.Counted(values', storages', external)
    requires ResultsKept(g, table, values', given, storages')
    ensures var g' := Remaining(g, values', storages');
            Admitted(g', KeptIn(g', table), rank)
            && MeaningsKept(g, m, bytes, g', KeptIn(g', table), bytes', rank, apply)
  {
    hide Linked, GaveUp, V.Counted, ResultsKept, Admitted, Meaning, KeptIn;
    RemainingAdmitted(g, table, rank, values, storages, external, given, values', storages');
    var g' := Remaining(g, values', storages');
    var m' := KeptIn(g', table);
    forall v | v in g'
      ensures Meaning(g', m', rank, apply, Reading(bytes'), v) == Meaning(g, m, rank, apply, Reading(bytes), v)
    {
      RemainingMeaning(g, table, rank, apply, Reading(bytes'), values, storages, external, given, values', storages',
                       v);
      assert MeansTheSame(g, rank, apply, m, bytes, table, bytes', v);
    }
    hide Reading;
  }

  lemma RemainingProducers(g: Graph, m: Materials<Allocation>, f: Formed<Allocation>, table: Materials<Allocation>,
                           values: seq<V.TensorValue>, storages: seq<V.StorageState>, given: seq<V.Id>,
                           values': seq<V.TensorValue>, storages': seq<V.StorageState>)
    requires Lowered(g, m, f) && Linked(g, values, storages) && RecordedFrom(m, f, table) && Origins(g, table)
    requires V.Places(values, storages, f.newlyComputed) && given == V.StoragesOf(values, f.newlyComputed)
    requires GaveUp(values, storages, given, values', storages')
    ensures var g' := Remaining(g, values', storages');
            ProducersGiven(m, g', KeptIn(g', table))
  {
    var g' := Remaining(g, values', storages');
    var m' := KeptIn(g', table);
    forall v | v in g' && v in m' && m'[v].Resident? && !(v in m && m[v].Resident?) ensures g'[v].producer.None? {
      RecordedResident(m, f, table, v);
      ProducerGiven(g, m, f, values, storages, given, values', storages', v);
    }
    hide Lowered, Linked, RecordedFrom, GaveUp, V.Places;
  }

  lemma ProducerGiven(g: Graph, m: Materials<Allocation>, f: Formed<Allocation>, values: seq<V.TensorValue>,
                      storages: seq<V.StorageState>, given: seq<V.Id>, values': seq<V.TensorValue>,
                      storages': seq<V.StorageState>, v: Value)
    requires Lowered(g, m, f) && Linked(g, values, storages) && v in f.slots && !(v in m && m[v].Resident?)
    requires V.Places(values, storages, f.newlyComputed) && given == V.StoragesOf(values, f.newlyComputed)
    requires GaveUp(values, storages, given, values', storages')
    requires v in Remaining(g, values', storages') && g[v].storageValue == v
    ensures Remaining(g, values', storages')[v].producer.None?
  {
    assert Describes(g, m, f, f.slots[v]);
    StillUsed(values, storages, given, values', storages', v);
    if ActiveProducer(g, m, v).Some? {
      var k :| 0 <= k < |f.computations| && f.computations[k].output == f.slots[v];
      ComputedAt(g, m, f, values, storages, k);
      assert Lowers(g, m, f, k) && f.newlyComputed[k] == v;
      assert given[k] == values[v].storage;
    }
    hide Linked, GaveUp, V.Places;
  }

  lemma RootRemains(g: Graph, values: seq<V.TensorValue>,
                    storages: seq<V.StorageState>, external: Owners, root: Value)
    requires Linked(g, values, storages) && V.Counted(values, storages, external) && root in external
    ensures root in g && g[root].storageValue in g
  {
    V.LiveReference(values, storages, external, root);
    assert V.InUse(values, storages, root) && LinkedAt(g, values, storages, root);
    assert V.InUse(values, storages, g[root].storageValue);
    hide V.Counted;
  }

  lemma LoweredInUse(g: Graph, m: Materials<Allocation>, f: Formed<Allocation>, values: seq<V.TensorValue>,
                     storages: seq<V.StorageState>)
    requires Lowered(g, m, f) && Linked(g, values, storages)
    ensures forall i :: 0 <= i < |f.valuesBySlot| ==> V.InUse(values, storages, f.valuesBySlot[i])
  {
    forall i | 0 <= i < |f.valuesBySlot| ensures V.InUse(values, storages, f.valuesBySlot[i]) {
      assert Describes(g, m, f, i) && LinkedAt(g, values, storages, f.valuesBySlot[i]);
    }
    hide Lowered, Linked;
  }

  lemma SoundParts(g: Graph, m: Materials<Allocation>, rank: Value -> nat, values: seq<V.TensorValue>,
                   storages: seq<V.StorageState>, live: map<nat, Allocation>)
    requires Sound(g, m, rank, values, storages, live)
    ensures Admitted(g, m, rank) && Linked(g, values, storages) && Marked(g, m, values, storages)
    ensures Origins(g, m) && Residing(g, m, live) && Housed(m, live)
  {
    hide Admitted, Linked, Marked, Origins, Residing, Housed;
  }

  lemma Exact(session: V.SessionValues, external: Owners)
    requires session.Consistent(external)
    ensures V.Counted(session.values, session.storages, external)
  {
    hide V.Counted;
  }

  lemma NothingChanged(g: Graph, m: Materials<Allocation>, bytes: seq<int>, rank: Value -> nat, apply: Semantics)
    requires Admitted(g, m, rank)
    ensures MeaningsKept(g, m, bytes, g, m, bytes, rank, apply) && ProducersGiven(m, g, m)
  {
    hide Meaning, Reading, Admitted;
  }

  lemma MarkedSame(before: seq<V.StorageState>, after: seq<V.StorageState>, more: set<V.Id>)
    requires MarkedAlso(before, after, more)
    ensures SameProducers(before, after)
  {
  }

  lemma ComputedPlaces(g: Graph, m: Materials<Allocation>, f: Formed<Allocation>, values: seq<V.TensorValue>,
                       storages: seq<V.StorageState>)
    requires Lowered(g, m, f) && Linked(g, values, storages)
    ensures V.Places(values, storages, f.newlyComputed)
  {
    ComputedInside(g, m, f, values, storages);
    hide Lowered, Linked;
  }

  lemma GaveUpFrom(values: seq<V.TensorValue>, storages: seq<V.StorageState>, computed: seq<Value>,
                   values': seq<V.TensorValue>, storages': seq<V.StorageState>)
    requires V.Places(values, storages, computed) && V.SamePlaces(values, values')
    requires V.Fades(V.Without(storages, V.StoragesOf(values, computed)), storages')
    ensures GaveUp(values, storages, V.StoragesOf(values, computed), values', storages')
  {
    hide V.Fades, V.Without;
  }

  /** The payloads given back are each recorded for one value, and live. */
  lemma PayloadsKnown(g: Graph, table: Materials<Allocation>, values: seq<V.TensorValue>,
                      storages: seq<V.StorageState>, external: Owners, storages': seq<V.StorageState>,
                      released: seq<V.Id>, live: map<nat, Allocation>)
    requires Linked(g, values, storages) && Marked(g, table, values, storages) && Origins(g, table)
    requires V.Counted(values, storages, external) && Residing(g, table, live)
    requires V.GivenBack(storages, storages', released)
    ensures Payloads(values, table, released, live)
  {
    forall i | 0 <= i < |released| ensures HasPayload(values, table, released[i]) {
      assert released[i] in released;
      var v := PayloadRecorded(g, table, values, storages, external, released[i]);
    }
    PayloadsApart(g, table, values, storages);
    PayloadsLive(g, table, values, live);
    hide Linked, Marked, V.Counted, PayloadOf;
  }

  lemma PayloadsLive(g: Graph, table: Materials<Allocation>, values: seq<V.TensorValue>, live: map<nat, Allocation>)
    requires Origins(g, table) && Residing(g, table, live)
    ensures forall v, s :: PayloadOf(values, table, s, v) ==>
              var al := table[v].allocation; al.id in live && live[al.id] == al
  {
    hide ByteLength;
  }

  lemma OwnedRetained(g: Graph, f: Formed<Allocation>, references: map<Value, nat>, capturable: set<Value>)
    ensures forall v :: v in g && OwnedOutside(f, references, v) ==> Retains(f, references, capturable, v)
  {
    hide UsesFrom;
  }

  /** What the session looks like once the results of a run are marked. */
  lemma ResultsMarked(g: Graph, m: Materials<Allocation>, f: Formed<Allocation>, table: Materials<Allocation>,
                      values: seq<V.TensorValue>, storages: seq<V.StorageState>, marked: seq<V.StorageState>)
    requires Lowered(g, m, f) && Linked(g, values, storages) && Marked(g, m, values, storages)
    requires RecordedFrom(m, f, table) && Origins(g, table)
    requires MarkedAlso(storages, marked, ResidentAmong(values, table, f.valuesBySlot))
    ensures Linked(g, values, marked) && Marked(g, table, values, marked) && SameProducers(storages, marked)
    ensures V.Places(values, marked, f.newlyComputed)
  {
    hide *;
    MarkedLinked(g, values, storages, marked, ResidentAmong(values, table, f.valuesBySlot));
    MarkedNow(g, m, f, table, values, storages, marked);
    MarkedSame(storages, marked, ResidentAmong(values, table, f.valuesBySlot));
    ComputedPlaces(g, m, f, values, marked);
  }

  /** What the backend and the table keep once the payloads that a session released are given back. */
  method GiveBack(allocator: LinearMemoryAllocator, g: Graph, table: Materials<Allocation>,
                  values: seq<V.TensorValue>, released: seq<V.Id>, ghost storages: seq<V.StorageState>,
                  ghost owners: Owners, ghost given: seq<V.Id>, ghost values': seq<V.TensorValue>,
                  ghost storages': seq<V.StorageState>, ghost external: Owners)
    requires allocator.Valid() && Linked(g, values, storages) && Marked(g, table, values, storages)
    requires Origins(g, table) && Residing(g, table, allocator.outstanding) && Housed(table, allocator.outstanding)
    requires V.Counted(values, storages, owners) && V.Counted(values', storages', external)
    requires GaveUp(values, storages, given, values', storages') && V.GivenBack(storages, storages', released)
    modifies allocator
    ensures allocator.Valid()
    ensures Linked(Remaining(g, values', storages'), values', storages')
    ensures Marked(Remaining(g, values', storages'), KeptIn(Remaining(g, values', storages'), table), values',
                   storages')
    ensures Origins(Remaining(g, values', storages'), KeptIn(Remaining(g, values', storages'), table))
    ensures Residing(Remaining(g, values', storages'), KeptIn(Remaining(g, values', storages'), table),
                     allocator.outstanding)
    ensures Housed(KeptIn(Remaining(g, values', storages'), table), allocator.outstanding)
  {
    hide *;
    ghost var live := allocator.outstanding;
    PayloadsKnown(g, table, values, storages, owners, storages', released, live);
    ReleasePayloads(allocator, values, table, released);
    LinkedRemaining(g, values, storages, given, values', storages');
    PayloadsLeft(g, table, values, storages, external, given, values', storages', released, live,
                 allocator.outstanding);
  }

  /** Gives up the producers of some results, and the payloads of whatever nobody refers to then. */
  method GiveUpDependencies(session: V.SessionValues, allocator: LinearMemoryAllocator, g: Graph,
                            table: Materials<Allocation>, computed: seq<Value>, ghost external: Owners)
    returns (remaining: Graph)
    requires session.Consistent(external) && allocator.Valid() && V.Places(session.values, session.storages, computed)
    requires Linked(g, session.values, session.storages) && Marked(g, table, session.values, session.storages)
    requires Origins(g, table) && Residing(g, table, allocator.outstanding) && Housed(table, allocator.outstanding)
    modifies session, allocator
    ensures session.Consistent(external) && allocator.Valid()
    ensures V.Places(old(session.values), old(session.storages), computed)
    ensures GaveUp(old(session.values), old(session.storages), V.StoragesOf(old(session.values), computed),
                   session.values, session.storages)
    ensures remaining == Remaining(g, session.values, session.storages)
    ensures Linked(remaining, session.values, session.storages)
    ensures Marked(remaining, KeptIn(remaining, table), session.values, session.storages)
    ensures Origins(remaining, KeptIn(remaining, table))
    ensures Residing(remaining, KeptIn(remaining, table), allocator.outstanding)
    ensures Housed(KeptIn(remaining, table), allocator.outstanding)
  {
    hide *;
    Exact(session, external);
    var values := session.values;
    ghost var storages := session.storages;
    PlacesInside(values, storages, computed);
    ghost var given := V.StoragesOf(values, computed);
    var released := session.ReleaseCompletedDependencies(computed, external);
    Exact(session, external);
    GaveUpFrom(values, storages, computed, session.values, session.storages);
    GiveBack(allocator, g, table, values, released, storages, external, given, session.values, session.storages,
             external);
    remaining := Remaining(g, session.values, session.storages);
  }

  lemma PlacesInside(values: seq<V.TensorValue>, storages: seq<V.StorageState>, ids: seq<Value>)
    requires V.Places(values, storages, ids)
    ensures forall i :: 0 <= i < |ids| ==> ids[i] < |values|
  {
  }

  /**
   * Materializes a value that somebody refers to. On success every value that is
   * still in use means what it meant, although results have given up their
   * producers and what nobody refers to has given its payload back: then the
   * backend's live allocations are the payloads of the storages in use, one each.
   */
  method MaterializeValue(session: V.SessionValues, backend: WebAssemblyCpuBackend, g: Graph,
                          m: Materials<Allocation>, root: Value, capturable: set<Value>, apply: Semantics,
                          ghost rank: Value -> nat, ghost external: Owners)
    returns (result: Materialized, remaining: Graph)
    requires session.Consistent(external) && root in external && Sized(apply)
    requires Sound(g, m, rank, session.values, session.storages, backend.allocator.outstanding)
    requires backend.allocator.Valid() && |backend.allocator.memory.bytes| % PAGE_BYTES == 0
    modifies session, backend, backend.allocator, backend.allocator.memory
    ensures session.Consistent(external) && backend.allocator.Valid()
    ensures result.Refused? ==>
              remaining == g && session.values == old(session.values) && session.storages == old(session.storages)
              && backend.allocator.outstanding == old(backend.allocator.outstanding)
    ensures result.Ready? ==>
              && Sound(remaining, result.table, rank, session.values, session.storages,
                       backend.allocator.outstanding)
              && MeaningsKept(g, m, old(backend.allocator.memory.bytes), remaining, result.table,
                              backend.allocator.memory.bytes, rank, apply)
              && root in remaining && remaining[root].storageValue in result.table
              && result.table[remaining[root].storageValue].Resident?
              && ProducersGiven(m, remaining, result.table)
  {
    hide *;
    SoundParts(g, m, rank, session.values, session.storages, backend.allocator.outstanding);
    Exact(session, external);
    RootRemains(g, session.values, session.storages, external, root);
    remaining := g;
    var origin := g[root].storageValue;
    if origin in m && m[origin].Resident? {
      NothingChanged(g, m, backend.allocator.memory.bytes, rank, apply);
      return Ready(m), g;
    }
    ghost var storages := session.storages;
    var values := session.values;
    var references := References(g, session.values, session.storages);
    var ran, f := Materialize(backend, g, m, root, references, capturable, apply, rank);
    if ran.Refused? {
      return ran, g;
    }
    LoweredInUse(g, m, f, values, storages);
    MarkResident(session, ran.table, f.valuesBySlot, external);
    ghost var marked := session.storages;
    ResultsMarked(g, m, f, ran.table, values, storages, marked);
    remaining := GiveUpDependencies(session, backend.allocator, g, ran.table, f.newlyComputed, external);
    PlacesInside(values, marked, f.newlyComputed);
    ghost var given := V.StoragesOf(values, f.newlyComputed);
    Exact(session, external);
    OwnedRetained(g, f, references, capturable);
    ResultsRetained(g, m, rank, f, ran.table, values, storages, marked, external, given, session.values,
                    session.storages);
    RemainingMeanings(g, m, old(backend.allocator.memory.bytes), ran.table, backend.allocator.memory.bytes, rank,
                      apply, values, marked, external, given, session.values, session.storages);
    RemainingProducers(g, m, f, ran.table, values, marked, given, session.values, session.storages);
    RootRemains(remaining, session.values, session.storages, external, root);
    RootKept(g, session.values, session.storages, ran.table, root);
    SoundFrom(remaining, KeptIn(remaining, ran.table), rank, session.values, session.storages,
              backend.allocator.outstanding);
    result := Ready(KeptIn(remaining, ran.table));
  }

  /** The storage of a root in use keeps its payload. */
  lemma RootKept(g: Graph, values: seq<V.TensorValue>, storages: seq<V.StorageState>, table: Materials<Allocation>,
                 root: Value)
    requires root in Remaining(g, values, storages)
    requires Remaining(g, values, storages)[root].storageValue in Remaining(g, values, storages)
    requires g[root].storageValue in table && table[g[root].storageValue].Resident?
    ensures var g' := Remaining(g, values, storages);
            var m' := KeptIn(g', table);
            g'[root].storageValue in m' && m'[g'[root].storageValue].Resident?
  {
  }

  lemma SoundFrom(g: Graph, m: Materials<Allocation>, rank: Value -> nat, values: seq<V.TensorValue>,
                  storages: seq<V.StorageState>, live: map<nat, Allocation>)
    requires Admitted(g, m, rank) && Linked(g, values, storages) && Marked(g, m, values, storages)
    requires Origins(g, m) && Residing(g, m, live) && Housed(m, live)
    ensures Sound(g, m, rank, values, storages, live)
  {
    hide Admitted, Linked, Marked, Origins, Residing, Housed;
  }

  /** References given up without any producer given up before. */
  lemma GaveUpNone(values: seq<V.TensorValue>, storages: seq<V.StorageState>, values': seq<V.TensorValue>,
                   storages': seq<V.StorageState>)
    requires V.SamePlaces(values, values') && V.Fades(storages, storages')
    ensures GaveUp(values, storages, [], values', storages')
  {
    hide V.Fades;
  }

  lemma NoResults(g: Graph, m: Materials<Allocation>, values: seq<V.TensorValue>, storages: seq<V.StorageState>)
    ensures ResultsKept(g, m, values, [], storages)
  {
  }

  lemma AllTheSame(g: Graph, rank: Value -> nat, apply: Semantics, m: Materials<Allocation>, bytes: seq<int>)
    requires Admitted(g, m, rank)
    ensures SameMeanings(g, rank, apply, m, bytes, m, bytes)
  {
    hide Meaning, Admitted, Reading;
  }

  /**
   * Gives up one reference to a value. Whatever nobody refers to then gives its
   * payload back and goes; what is left means what it meant, and the backend's
   * live allocations are again the payloads of the storages in use, one each.
   */
  method ReleaseReference(session: V.SessionValues, allocator: LinearMemoryAllocator, g: Graph,
                          m: Materials<Allocation>, value: Value, ghost apply: Semantics, ghost rank: Value -> nat,
                          ghost external: Owners)
    returns (table: Materials<Allocation>, remaining: Graph)
    requires session.Consistent(external + multiset{value}) && allocator.Valid()
    requires Sound(g, m, rank, session.values, session.storages, allocator.outstanding)
    modifies session, allocator
    ensures session.Consistent(external) && allocator.Valid()
    ensures Sound(remaining, table, rank, session.values, session.storages, allocator.outstanding)
    ensures MeaningsKept(g, m, allocator.memory.bytes, remaining, table, allocator.memory.bytes, rank, apply)
  {
    hide *;
    SoundParts(g, m, rank, session.values, session.storages, allocator.outstanding);
    Exact(session, external + multiset{value});
    var values := session.values;
    ghost var storages := session.storages;
    var released := session.ReleaseValue(value, external);
    Exact(session, external);
    GaveUpNone(values, storages, session.values, session.storages);
    GiveBack(allocator, g, m, values, released, storages, external + multiset{value}, [], session.values,
             session.storages, external);
    remaining := Remaining(g, session.values, session.storages);
    table := KeptIn(remaining, m);
    NoResults(g, m, session.values, session.storages);
    AllTheSame(g, rank, apply, m, allocator.memory.bytes);
    RemainingMeanings(g, m, allocator.memory.bytes, m, allocator.memory.bytes, rank, apply, values, storages,
                      external, [], session.values, session.storages);
    SoundFrom(remaining, table, rank, session.values, session.storages, allocator.outstanding);
  }
}
