/** Materializing a demanded value: forming its program, running it, and recording what stays resident. */
module SessionMaterialization {
  import opened LinearMemory
  import opened Programs
  import opened ProgramFormation
  import opened InvocationUses
  import opened InvocationState
  import opened CpuBackend

  /** Resident payloads of admitted values are live and of their values' sizes. */
  ghost predicate Residing(g: Graph, m: Materials<Allocation>, live: map<nat, Allocation>) {
    forall v :: v in g && v in m && m[v].Resident? ==>
      var al := m[v].allocation;
      al.id in live && live[al.id] == al && al.byteLength == ByteLength(g[v].shape)
  }

  /** The table with the allocations that a run returned. */
  function Recorded(m: Materials<Allocation>, f: Formed<Allocation>, held: map<Slot, Allocation>)
    : Materials<Allocation>
  {
    map v | v in m.Keys + f.slots.Keys && (v in m || f.slots[v] in held) ::
      if v in f.slots && f.slots[v] in held then Resident(held[f.slots[v]]) else m[v]
  }

  ghost predicate RecordedFrom(m: Materials<Allocation>, f: Formed<Allocation>, table: Materials<Allocation>) {
    exists held :: table == Recorded(m, f, held)
  }

  lemma RecordedAdmitted(g: Graph, m: Materials<Allocation>, rank: Value -> nat, f: Formed<Allocation>,
                         held: map<Slot, Allocation>)
    requires Admitted(g, m, rank)
    ensures Admitted(g, Recorded(m, f, held), rank)
  {
    var m' := Recorded(m, f, held);
    forall v | v in g ensures AdmittedValue(g, m', rank, v) {
      assert AdmittedValue(g, m, rank, v);
    }
  }

  function Reading(bytes: seq<int>): Allocation -> Bytes { (al: Allocation) => Read(bytes, al) }

  /** Recording the results of a run changes the meaning of no value of the session. */
  lemma {:induction false} MeaningKept(g: Graph, m: Materials<Allocation>, rank: Value -> nat, f: Formed<Allocation>,
                                       x: Invocation, apply: Semantics,
                                       held: map<Slot, Allocation>, live: map<nat, Allocation>, bytes: seq<int>,
                                       v: Value)
    requires Admitted(g, m, rank) && Lowered(g, m, f) && v in g && Residing(g, m, x.before)
    requires x.values == f.values && x.computations == f.computations && x.bindings == f.bindings
    requires Outcomes(x, apply, held, live, bytes) && Undisturbed(x, bytes)
    ensures Admitted(g, Recorded(m, f, held), rank)
    ensures Meaning(g, Recorded(m, f, held), rank, apply, Reading(bytes), v)
         == Meaning(g, m, rank, apply, Reading(x.memory), v)
    decreases rank(v), 0
  {
    hide Lowered, Outcomes, Undisturbed, Residing;
    RecordedAdmitted(g, m, rank, f, held);
    assert AdmittedValue(g, m, rank, v);
    var m', root := Recorded(m, f, held), g[v].storageValue;
    if root != v {
      MeaningKept(g, m, rank, f, x, apply, held, live, bytes, root);
    } else if v in f.slots && f.slots[v] in held {
      RecordedMeaning(g, m, rank, f, x, apply, held, live, bytes, v);
    } else {
      assert ActiveProducer(g, m', v) == ActiveProducer(g, m, v);
      if ActiveProducer(g, m, v).Some? {
        var inputs := ActiveProducer(g, m, v).value.inputs;
        InputsKept(g, m, rank, f, x, apply, held, live, bytes, v, inputs, |inputs|);
      } else {
        StillRead(g, m, x, bytes, v);
      }
    }
  }

  lemma {:induction false} InputsKept(g: Graph, m: Materials<Allocation>, rank: Value -> nat, f: Formed<Allocation>,
                                      x: Invocation, apply: Semantics,
                                      held: map<Slot, Allocation>, live: map<nat, Allocation>, bytes: seq<int>,
                                      v: Value, inputs: seq<Value>, n: nat)
    requires Admitted(g, m, rank) && Lowered(g, m, f) && Residing(g, m, x.before) && n <= |inputs|
    requires forall i :: 0 <= i < |inputs| ==> inputs[i] in g && rank(inputs[i]) < rank(v)
    requires x.values == f.values && x.computations == f.computations && x.bindings == f.bindings
    requires Outcomes(x, apply, held, live, bytes) && Undisturbed(x, bytes)
    ensures Admitted(g, Recorded(m, f, held), rank)
    ensures Inputs(g, Recorded(m, f, held), rank, apply, Reading(bytes), v, inputs, n)
         == Inputs(g, m, rank, apply, Reading(x.memory), v, inputs, n)
    decreases rank(v), 0, n
  {
    hide Lowered, Outcomes, Undisturbed, Residing, Admitted, Meaning, Recorded, Reading;
    RecordedAdmitted(g, m, rank, f, held);
    if n > 0 {
      InputsKept(g, m, rank, f, x, apply, held, live, bytes, v, inputs, n - 1);
      MeaningKept(g, m, rank, f, x, apply, held, live, bytes, inputs[n - 1]);
    }
  }

  /** A slot that the run returned holds the meaning of its value. */
  lemma RecordedMeaning(g: Graph, m: Materials<Allocation>, rank: Value -> nat, f: Formed<Allocation>, x: Invocation,
                        apply: Semantics,
                        held: map<Slot, Allocation>, live: map<nat, Allocation>, bytes: seq<int>, v: Value)
    requires Admitted(g, m, rank) && Lowered(g, m, f) && v in g && v in f.slots && f.slots[v] in held
    requires g[v].storageValue == v
    requires x.values == f.values && x.computations == f.computations && x.bindings == f.bindings
    requires Outcomes(x, apply, held, live, bytes)
    ensures Read(bytes, held[f.slots[v]]) == Meaning(g, m, rank, apply, Reading(x.memory), v)
  {
    SlotOf(g, m, f, v);
    hide Lowered, Outcomes, Admitted, Meaning, Read;
    FormedExecution(g, m, rank, f, x, apply, held, live, bytes, v);
    MeaningSame(g, m, rank, apply, (al: Allocation) => Read(x.memory, al), Reading(x.memory), v);
  }

  lemma SlotOf(g: Graph, m: Materials<Allocation>, f: Formed<Allocation>, v: Value)
    requires Lowered(g, m, f) && v in f.slots && v in g && g[v].storageValue == v
    ensures f.slots[v] < |f.values| && f.values[f.slots[v]].storageSlot == f.slots[v]
  {
    assert Describes(g, m, f, f.slots[v]);
  }

  lemma {:induction false} MeaningSame(g: Graph, m: Materials<Allocation>, rank: Value -> nat, apply: Semantics,
                                       a: Allocation -> Bytes, b: Allocation -> Bytes, v: Value)
    requires Admitted(g, m, rank) && v in g && forall al :: a(al) == b(al)
    ensures Meaning(g, m, rank, apply, a, v) == Meaning(g, m, rank, apply, b, v)
    decreases rank(v), 0
  {
    assert AdmittedValue(g, m, rank, v);
    if g[v].storageValue != v {
      MeaningSame(g, m, rank, apply, a, b, g[v].storageValue);
    } else if ActiveProducer(g, m, v).Some? {
      InputsSame(g, m, rank, apply, a, b, v, ActiveProducer(g, m, v).value.inputs,
                 |ActiveProducer(g, m, v).value.inputs|);
    }
  }

  lemma {:induction false} InputsSame(g: Graph, m: Materials<Allocation>, rank: Value -> nat, apply: Semantics,
                                      a: Allocation -> Bytes,
                                      b: Allocation -> Bytes, v: Value, inputs: seq<Value>, n: nat)
    requires Admitted(g, m, rank) && n <= |inputs| && forall al :: a(al) == b(al)
    requires forall i :: 0 <= i < |inputs| ==> inputs[i] in g && rank(inputs[i]) < rank(v)
    ensures Inputs(g, m, rank, apply, a, v, inputs, n) == Inputs(g, m, rank, apply, b, v, inputs, n)
    decreases rank(v), 0, n
  {
    hide Admitted, Meaning;
    if n > 0 {
      InputsSame(g, m, rank, apply, a, b, v, inputs, n - 1);
      MeaningSame(g, m, rank, apply, a, b, inputs[n - 1]);
    }
  }

  /** A payload that was there before reads as before. */
  lemma StillRead(g: Graph, m: Materials<Allocation>, x: Invocation, bytes: seq<int>, v: Value)
    requires Residing(g, m, x.before) && Undisturbed(x, bytes) && v in g && v in m
    ensures ContentOf(m[v], Reading(bytes)) == ContentOf(m[v], Reading(x.memory))
  {
    hide Read;
  }

  function Count(references: map<Value, nat>, v: Value): nat { if v in references then references[v] else 0 }

  /** Somebody besides the computations of the program owns the storage of v. */
  predicate OwnedOutside(f: Formed<Allocation>, references: map<Value, nat>, v: Value) {
    v in f.slots && Count(references, v) > UsesFrom(f.values, f.computations, 0, f.slots[v])
  }

  /** The payload of v is kept for owners besides the program, or for capturing it as a scalar projection. */
  predicate Retains(f: Formed<Allocation>, references: map<Value, nat>, capturable: set<Value>, v: Value) {
    v in f.slots && (v in capturable || OwnedOutside(f, references, v))
  }

  /** A storage slot is retained for owners besides the program's own uses, or if it can be captured. */
  predicate RetainedAt(f: Formed<Allocation>, references: map<Value, nat>, capturable: set<Value>, s: Slot)
    requires s < |f.values| == |f.valuesBySlot|
  {
    && f.values[s].storageSlot == s
    && (f.valuesBySlot[s] in capturable
        || Count(references, f.valuesBySlot[s]) > UsesFrom(f.values, f.computations, 0, s))
  }

  /** The slots to retain: those with owners besides the program's own uses, and capturable projections. */
  method RetainedSlots(p: ExecutableProgram, f: Formed<Allocation>, references: map<Value, nat>,
                       capturable: set<Value>)
    returns (retained: seq<bool>)
    requires ProperProgram(p) && p.values == f.values && p.computations == f.computations
    requires |f.values| == |f.valuesBySlot|
    ensures |retained| == |f.values|
    ensures forall s :: 0 <= s < |f.values| ==> (retained[s] <==> RetainedAt(f, references, capturable, s))
  {
    hide UsesFrom, Count, WellFormed;
    retained := [];
    for s := 0 to |p.values|
      invariant |retained| == s
      invariant forall k :: 0 <= k < s ==> (retained[k] <==> RetainedAt(f, references, capturable, k))
    {
      retained := retained
        + [p.values[s].storageSlot == s
           && (f.valuesBySlot[s] in capturable || Count(references, f.valuesBySlot[s]) > p.storageUseCounts[s])];
    }
  }

  lemma LoweredParts(g: Graph, m: Materials<Allocation>, f: Formed<Allocation>, v: Value)
    requires Lowered(g, m, f) && v in f.slots
    ensures |f.values| == |f.valuesBySlot| && f.slots[v] < |f.values| && f.valuesBySlot[f.slots[v]] == v
  {
  }

  lemma FormedBindings(g: Graph, m: Materials<Allocation>, rank: Value -> nat, f: Formed<Allocation>, x: Invocation)
    requires Admitted(g, m, rank) && Lowered(g, m, f) && Residing(g, m, x.before)
    requires x.values == f.values && x.bindings == f.bindings
    requires forall id :: id in x.before ==> id < x.next
    ensures ProperBindings(x)
  {
    forall s | s in x.bindings
      ensures s < |x.values| && x.values[s].source.Binding?
              && match x.bindings[s]
                 case Host(data) => |data| == ByteLength(x.values[s].shape)
                 case Resident(al) => al.byteLength == ByteLength(x.values[s].shape) && al.id < x.next
    {
      assert Describes(g, m, f, s);
      assert AdmittedValue(g, m, rank, f.valuesBySlot[s]);
    }
    hide ByteLength;
  }

  lemma LiveBelow(base: nat, cursor: nat, free: seq<Segment>, bound: nat, live: map<nat, Allocation>, next: nat,
                  reserved: nat, payload: nat)
    requires LinearMemory.Consistent(base, cursor, free, bound, live, next, reserved, payload)
    ensures forall id :: id in live ==> id < next
  {
  }

  /** What has been recorded resides in what is live now. */
  lemma RecordedResiding(g: Graph, m: Materials<Allocation>, f: Formed<Allocation>, x: Invocation, apply: Semantics,
                         held: map<Slot, Allocation>, live: map<nat, Allocation>, bytes: seq<int>)
    requires Lowered(g, m, f) && Residing(g, m, x.before) && x.values == f.values && x.computations == f.computations
    requires Outcomes(x, apply, held, live, bytes)
    ensures Residing(g, Recorded(m, f, held), live)
  {
    var m' := Recorded(m, f, held);
    hide Evaluate, BoundBelow, Read, ByteLength, UsesFrom, Own;
    forall v | v in g && v in m' && m'[v].Resident?
      ensures var al := m'[v].allocation;
              al.id in live && live[al.id] == al && al.byteLength == ByteLength(g[v].shape)
    {
      if v in f.slots && f.slots[v] in held {
        assert Describes(g, m, f, f.slots[v]);
        var env := Evaluate(apply, x.values, x.computations, BoundBelow(x, |x.values|), |x.computations|);
        assert Holding(x, env, held, live, bytes, f.slots[v]);
      }
    }
  }

  /** A storage with other owners is kept. */
  lemma KeptOutside(g: Graph, m: Materials<Allocation>, f: Formed<Allocation>, x: Invocation, apply: Semantics,
                    held: map<Slot, Allocation>, live: map<nat, Allocation>, bytes: seq<int>, v: Value)
    requires Lowered(g, m, f) && v in f.slots && v in g && g[v].storageValue == v
    requires x.values == f.values && x.computations == f.computations && Outcomes(x, apply, held, live, bytes)
    requires f.slots[v] < |x.retained| && x.retained[f.slots[v]]
    ensures f.slots[v] in held
  {
    assert Describes(g, m, f, f.slots[v]);
    hide State, Evaluate, BoundBelow, UsesFrom;
  }

  /** No operand of the program is stored where the demanded value is. */
  lemma RootUnused(g: Graph, m: Materials<Allocation>, rank: Value -> nat, f: Formed<Allocation>, root: Value)
    requires Admitted(g, m, rank) && Lowered(g, m, f) && root in g && root in f.slots
    requires forall v :: v in f.slots ==> Beneath(g, rank, root, v)
    ensures g[root].storageValue in f.slots
    ensures UsesFrom(f.values, f.computations, 0, f.slots[g[root].storageValue]) == 0
  {
    hide Beneath;
    SlotFacts(g, m, rank, f, root);
    var slot := f.slots[g[root].storageValue];
    forall j, i | 0 <= j < |f.computations| && 0 <= i < |f.computations[j].inputs|
      ensures StorageOf(f.values, f.computations[j].inputs[i]) != slot
    {
      InputElsewhere(g, m, rank, f, root, j, i);
    }
    NeverUsed(f.values, f.computations, 0, slot);
    hide Admitted, Lowered;
  }

  lemma InputElsewhere(g: Graph, m: Materials<Allocation>, rank: Value -> nat, f: Formed<Allocation>, root: Value,
                       j: nat, i: nat)
    requires Admitted(g, m, rank) && Lowered(g, m, f) && root in g && g[root].storageValue in f.slots
    requires forall v :: v in f.slots ==> Beneath(g, rank, root, v)
    requires j < |f.computations| && i < |f.computations[j].inputs|
    ensures StorageOf(f.values, f.computations[j].inputs[i]) != f.slots[g[root].storageValue]
  {
    var c := f.computations[j];
    assert Lowers(g, m, f, j) && Describes(g, m, f, c.output);
    var v := f.valuesBySlot[c.output];
    var input := ActiveProducer(g, m, v).value.inputs[i];
    SlotFacts(g, m, rank, f, v);
    SlotFacts(g, m, rank, f, input);
    assert AdmittedValue(g, m, rank, v) && AdmittedValue(g, m, rank, input);
    assert Beneath(g, rank, root, v);
    hide Lowered, Admitted;
  }

  /** The demanded value's storage is among what the run returned. */
  lemma RootHeld(g: Graph, m: Materials<Allocation>, rank: Value -> nat, f: Formed<Allocation>, x: Invocation,
                 apply: Semantics, held: map<Slot, Allocation>, live: map<nat, Allocation>, bytes: seq<int>,
                 root: Value)
    requires Admitted(g, m, rank) && Lowered(g, m, f) && root in g && root in f.slots
    requires forall v :: v in f.slots ==> Beneath(g, rank, root, v)
    requires x.values == f.values && x.computations == f.computations && Outcomes(x, apply, held, live, bytes)
    ensures g[root].storageValue in Recorded(m, f, held) && Recorded(m, f, held)[g[root].storageValue].Resident?
  {
    var s := g[root].storageValue;
    RootUnused(g, m, rank, f, root);
    SlotFacts(g, m, rank, f, s);
    assert AdmittedValue(g, m, rank, root);
    hide Lowered, Admitted, State, Evaluate, BoundBelow, UsesFrom, Beneath;
  }

  /** Every value of the session means what it meant. */
  ghost predicate SameMeanings(g: Graph, rank: Value -> nat, apply: Semantics, m: Materials<Allocation>,
                               bytes: seq<int>, m': Materials<Allocation>, bytes': seq<int>)
    requires Admitted(g, m, rank) && Admitted(g, m', rank)
  {
    forall v :: v in g ==> MeansTheSame(g, rank, apply, m, bytes, m', bytes', v)
  }

  ghost predicate MeansTheSame(g: Graph, rank: Value -> nat, apply: Semantics, m: Materials<Allocation>,
                               bytes: seq<int>, m': Materials<Allocation>, bytes': seq<int>, v: Value)
    requires Admitted(g, m, rank) && Admitted(g, m', rank) && v in g
  {
    Meaning(g, m', rank, apply, Reading(bytes'), v) == Meaning(g, m, rank, apply, Reading(bytes), v)
  }

  /** Payloads are recorded for storages, under the value that each originates from. */
  ghost predicate Origins(g: Graph, m: Materials<Allocation>) {
    forall v :: v in m ==> v in g && g[v].storageValue == v
  }

  predicate Houses(m: Materials<Allocation>, v: Value, id: nat) {
    v in m && m[v].Resident? && m[v].allocation.id == id
  }

  /** Every live allocation is the payload of exactly one storage. */
  ghost predicate Housed(m: Materials<Allocation>, live: map<nat, Allocation>) {
    && (forall id :: id in live ==> exists v :: Houses(m, v, id))
    && (forall v, w, id :: Houses(m, v, id) && Houses(m, w, id) ==> v == w)
  }

  lemma RecordedOrigins(g: Graph, m: Materials<Allocation>, f: Formed<Allocation>, x: Invocation, apply: Semantics,
                        held: map<Slot, Allocation>, live: map<nat, Allocation>, bytes: seq<int>)
    requires Origins(g, m) && Lowered(g, m, f) && x.values == f.values && Outcomes(x, apply, held, live, bytes)
    ensures Origins(g, Recorded(m, f, held))
  {
    hide State, Evaluate, BoundBelow, UsesFrom;
    forall v | v in Recorded(m, f, held) ensures v in g && g[v].storageValue == v {
      if v in f.slots && f.slots[v] in held {
        assert Describes(g, m, f, f.slots[v]);
      }
    }
  }

  /** A returned slot has a payload from before, its own value's, exactly if it was bound to it. */
  lemma HeldFrom(g: Graph, m: Materials<Allocation>, f: Formed<Allocation>, x: Invocation, apply: Semantics,
                 held: map<Slot, Allocation>, live: map<nat, Allocation>, bytes: seq<int>, s: Slot)
    requires Lowered(g, m, f) && x.values == f.values && x.bindings == f.bindings
    requires Outcomes(x, apply, held, live, bytes) && s in held
    ensures s < |f.valuesBySlot| && f.valuesBySlot[s] in f.slots && f.slots[f.valuesBySlot[s]] == s
    ensures var v := f.valuesBySlot[s];
            if Borrowed(x, s) then v in m && m[v] == Resident(held[s])
            else held[s].id !in x.before && (v in m ==> !m[v].Resident?)
  {
    assert Describes(g, m, f, s);
    var env := Evaluate(apply, x.values, x.computations, BoundBelow(x, |x.values|), |x.computations|);
    assert Holding(x, env, held, live, bytes, s);
    hide Evaluate, BoundBelow, UsesFrom, Read, Own, ByteLength;
  }

  /** A run leaves each live allocation to one storage, as it found them. */
  lemma RecordedHoused(g: Graph, m: Materials<Allocation>, f: Formed<Allocation>, x: Invocation, apply: Semantics,
                       held: map<Slot, Allocation>, live: map<nat, Allocation>, bytes: seq<int>)
    requires Housed(m, x.before) && Origins(g, m) && Residing(g, m, x.before) && Lowered(g, m, f)
    requires x.values == f.values && x.bindings == f.bindings && Outcomes(x, apply, held, live, bytes)
    ensures Housed(Recorded(m, f, held), live)
  {
    var m' := Recorded(m, f, held);
    forall id | id in live ensures exists v :: Houses(m', v, id) {
      var v := HousedStill(g, m, f, x, apply, held, live, bytes, id);
    }
    forall v, w, id | Houses(m', v, id) && Houses(m', w, id) ensures v == w {
      HousedOnce(g, m, f, x, apply, held, live, bytes, v, w, id);
    }
    hide Recorded, Outcomes, Lowered, Residing, Houses;
  }

  lemma HousedStill(g: Graph, m: Materials<Allocation>, f: Formed<Allocation>, x: Invocation, apply: Semantics,
                    held: map<Slot, Allocation>, live: map<nat, Allocation>, bytes: seq<int>, id: nat)
    returns (v: Value)
    requires Housed(m, x.before) && Lowered(g, m, f) && x.values == f.values && x.bindings == f.bindings
    requires Outcomes(x, apply, held, live, bytes) && id in live
    ensures Houses(Recorded(m, f, held), v, id)
  {
    if id in x.before {
      v :| Houses(m, v, id);
      HousedBefore(g, m, f, x, apply, held, live, bytes, v, id);
    } else {
      v := HousedNew(g, m, f, x, apply, held, live, bytes, id);
    }
    hide *;
  }

  lemma HousedBefore(g: Graph, m: Materials<Allocation>, f: Formed<Allocation>, x: Invocation, apply: Semantics,
                     held: map<Slot, Allocation>, live: map<nat, Allocation>, bytes: seq<int>, v: Value, id: nat)
    requires Lowered(g, m, f) && x.values == f.values && x.bindings == f.bindings
    requires Outcomes(x, apply, held, live, bytes) && Houses(m, v, id)
    ensures Houses(Recorded(m, f, held), v, id)
  {
    if v in f.slots && f.slots[v] in held {
      HeldFrom(g, m, f, x, apply, held, live, bytes, f.slots[v]);
      SlotValue(g, m, f, v);
    }
    hide Outcomes, Lowered;
  }

  lemma HousedNew(g: Graph, m: Materials<Allocation>, f: Formed<Allocation>, x: Invocation, apply: Semantics,
                  held: map<Slot, Allocation>, live: map<nat, Allocation>, bytes: seq<int>, id: nat)
    returns (v: Value)
    requires Lowered(g, m, f) && x.values == f.values && x.bindings == f.bindings
    requires Outcomes(x, apply, held, live, bytes) && id in live && id !in x.before
    ensures Houses(Recorded(m, f, held), v, id)
  {
    hide Outcomes, Lowered, Read;
    OutcomesIsolated(x, apply, held, live, bytes);
    var s :| s in held && !Borrowed(x, s) && held[s].id == id;
    HeldFrom(g, m, f, x, apply, held, live, bytes, s);
    v := f.valuesBySlot[s];
  }

  lemma SlotValue(g: Graph, m: Materials<Allocation>, f: Formed<Allocation>, v: Value)
    requires Lowered(g, m, f) && v in f.slots
    ensures f.slots[v] < |f.valuesBySlot| && f.valuesBySlot[f.slots[v]] == v
  {
  }

  lemma OutcomesIsolated(x: Invocation, apply: Semantics, held: map<Slot, Allocation>, live: map<nat, Allocation>,
                         bytes: seq<int>)
    requires Outcomes(x, apply, held, live, bytes)
    ensures Isolated(x, held, live, bytes)
  {
    hide Isolated, Evaluate, BoundBelow, UsesFrom;
  }

  /** What a value houses after a run, it housed before or the run returned for it. */
  lemma HousedFrom(g: Graph, m: Materials<Allocation>, f: Formed<Allocation>, x: Invocation, apply: Semantics,
                   held: map<Slot, Allocation>, live: map<nat, Allocation>, bytes: seq<int>, v: Value, id: nat)
    requires Origins(g, m) && Residing(g, m, x.before) && Lowered(g, m, f) && x.values == f.values
    requires x.bindings == f.bindings && Outcomes(x, apply, held, live, bytes) && Houses(Recorded(m, f, held), v, id)
    ensures (Houses(m, v, id) && id in x.before)
            || (id !in x.before && v in f.slots && f.slots[v] in held && !Borrowed(x, f.slots[v])
                && held[f.slots[v]].id == id)
  {
    if v in f.slots && f.slots[v] in held {
      HeldFrom(g, m, f, x, apply, held, live, bytes, f.slots[v]);
      SlotValue(g, m, f, v);
    }
    hide Outcomes, Lowered;
  }

  lemma HousedOnce(g: Graph, m: Materials<Allocation>, f: Formed<Allocation>, x: Invocation, apply: Semantics,
                   held: map<Slot, Allocation>, live: map<nat, Allocation>, bytes: seq<int>, v: Value, w: Value,
                   id: nat)
    requires Housed(m, x.before) && Origins(g, m) && Residing(g, m, x.before) && Lowered(g, m, f)
    requires x.values == f.values && x.bindings == f.bindings && Outcomes(x, apply, held, live, bytes)
    requires Houses(Recorded(m, f, held), v, id) && Houses(Recorded(m, f, held), w, id)
    ensures v == w
  {
    HousedFrom(g, m, f, x, apply, held, live, bytes, v, id);
    HousedFrom(g, m, f, x, apply, held, live, bytes, w, id);
    if id !in x.before {
      SlotValue(g, m, f, v);
      SlotValue(g, m, f, w);
      OutcomesIsolated(x, apply, held, live, bytes);
    }
    hide Outcomes, Lowered, Recorded, Residing;
  }

  datatype Materialized = Ready(table: Materials<Allocation>) | Refused(reason: Failure)

  /**
   * Materializes a value. On success the meaning of every value of the session
   * is what it was, read from the new table and memory, and the storage of the
   * demanded value is resident, as is each storage that can be captured or has
   * owners besides this program's computations; a refusal leaves exactly the allocations from before.
   */
  method Materialize(backend: WebAssemblyCpuBackend, g: Graph, m: Materials<Allocation>, root: Value,
                     references: map<Value, nat>, capturable: set<Value>, apply: Semantics,
                     ghost rank: Value -> nat)
    returns (result: Materialized, f: Formed<Allocation>)
    requires Admitted(g, m, rank) && root in g && Residing(g, m, backend.allocator.outstanding) && Sized(apply)
    requires backend.allocator.Valid() && |backend.allocator.memory.bytes| % PAGE_BYTES == 0
    modifies backend, backend.allocator, backend.allocator.memory
    ensures backend.allocator.Valid() && Lowered(g, m, f) && root in f.slots
    ensures result.Refused? ==> backend.allocator.outstanding == old(backend.allocator.outstanding)
    ensures result.Ready? ==>
              && Admitted(g, result.table, rank) && Residing(g, result.table, backend.allocator.outstanding)
              && SameMeanings(g, rank, apply, m, old(backend.allocator.memory.bytes), result.table,
                              backend.allocator.memory.bytes)
              && g[root].storageValue in result.table && result.table[g[root].storageValue].Resident?
              && (forall v :: v in g && g[v].storageValue == v && Retains(f, references, capturable, v) ==>
                    v in result.table && result.table[v].Resident?)
              && RecordedFrom(m, f, result.table)
              && (Origins(g, m) && Housed(m, old(backend.allocator.outstanding)) ==>
                    Origins(g, result.table) && Housed(result.table, backend.allocator.outstanding))
  {
    hide *;
    f := FormExecutableProgram(g, m, root, rank);
    LoweredParts(g, m, f, root);
    FormedWellFormed(g, m, rank, f);
    var program := MakeProgram(f.values, f.computations, f.slots[root]);
    var retained := RetainedSlots(program, f, references, capturable);
    ghost var start := Invocation(program.values, program.computations, f.bindings, retained,
                                  backend.allocator.outstanding, backend.allocator.next,
                                  backend.allocator.memory.bytes);
    Live(backend.allocator);
    FormedBindings(g, m, rank, f, start);
    var ran, x := backend.Execute(program, f.bindings, retained, apply);
    if ran.Failed? {
      return Refused(ran.reason), f;
    }
    ghost var held, live, bytes := ran.allocations, backend.allocator.outstanding, backend.allocator.memory.bytes;
    RecordedAdmitted(g, m, rank, f, held);
    RecordedResiding(g, m, f, x, apply, held, live, bytes);
    AllKept(g, m, rank, f, x, apply, held, live, bytes);
    RootHeld(g, m, rank, f, x, apply, held, live, bytes, root);
    forall v | v in g && g[v].storageValue == v && Retains(f, references, capturable, v)
      ensures v in Recorded(m, f, held) && Recorded(m, f, held)[v].Resident?
    {
      OutsideKept(g, m, f, x, apply, held, live, bytes, references, capturable, v);
    }
    if Origins(g, m) && Housed(m, x.before) {
      RecordedOrigins(g, m, f, x, apply, held, live, bytes);
      RecordedHoused(g, m, f, x, apply, held, live, bytes);
    }
    RecordedSome(m, f, held);
    result := Ready(Recorded(m, f, ran.allocations));
  }

  lemma RecordedSome(m: Materials<Allocation>, f: Formed<Allocation>, held: map<Slot, Allocation>)
    ensures RecordedFrom(m, f, Recorded(m, f, held))
  {
    hide Recorded;
  }

  lemma AllKept(g: Graph, m: Materials<Allocation>, rank: Value -> nat, f: Formed<Allocation>, x: Invocation,
                apply: Semantics, held: map<Slot, Allocation>, live: map<nat, Allocation>, bytes: seq<int>)
    requires Admitted(g, m, rank) && Lowered(g, m, f) && Residing(g, m, x.before)
    requires x.values == f.values && x.computations == f.computations && x.bindings == f.bindings
    requires Outcomes(x, apply, held, live, bytes) && Undisturbed(x, bytes)
    ensures Admitted(g, Recorded(m, f, held), rank)
    ensures SameMeanings(g, rank, apply, m, x.memory, Recorded(m, f, held), bytes)
  {
    hide Lowered, Outcomes, Undisturbed, Residing, Admitted, Meaning, Recorded, Reading;
    RecordedAdmitted(g, m, rank, f, held);
    forall v | v in g ensures MeansTheSame(g, rank, apply, m, x.memory, Recorded(m, f, held), bytes, v) {
      MeaningKept(g, m, rank, f, x, apply, held, live, bytes, v);
    }
  }

  lemma Live(allocator: LinearMemoryAllocator)
    requires allocator.Valid()
    ensures forall id :: id in allocator.outstanding ==> id < allocator.next
  {
    LiveBelow(allocator.base, allocator.cursor, allocator.freeSegments, allocator.freeSegmentByteBound,
              allocator.outstanding, allocator.next, allocator.liveReservedBytes, allocator.livePayloadBytes);
  }

  lemma OutsideKept(g: Graph, m: Materials<Allocation>, f: Formed<Allocation>, x: Invocation, apply: Semantics,
                    held: map<Slot, Allocation>, live: map<nat, Allocation>, bytes: seq<int>,
                    references: map<Value, nat>, capturable: set<Value>, v: Value)
    requires Lowered(g, m, f) && v in g && g[v].storageValue == v && Retains(f, references, capturable, v)
    requires x.values == f.values && x.computations == f.computations && Outcomes(x, apply, held, live, bytes)
    requires |x.retained| == |f.values| == |f.valuesBySlot|
    requires forall s :: 0 <= s < |f.values| ==> (x.retained[s] <==> RetainedAt(f, references, capturable, s))
    ensures v in Recorded(m, f, held) && Recorded(m, f, held)[v].Resident?
  {
    hide Lowered, Outcomes, UsesFrom, Count;
    LoweredParts(g, m, f, v);
    SlotOf(g, m, f, v);
    KeptOutside(g, m, f, x, apply, held, live, bytes, v);
  }
}
