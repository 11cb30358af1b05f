/**
 * Owners of numerical values. A value is a descriptor over a storage that
 * aliases share; a storage owns its producer's inputs until it is materialized
 * or nobody refers to it any more, and then gives up its payload once.
 */
module ValueOwnership {
  import opened Options
  import opened Sequences

  type Id = nat

  datatype TensorValue = TensorValue(references: nat, storage: Id)

  datatype StorageState = StorageState(references: nat, producer: Option<seq<Id>>, resident: bool, bytes: nat)

  /** The inputs that a storage's producer owns. */
  function Inputs(s: StorageState): seq<Id> { if s.producer.Some? then s.producer.value else [] }

  function Owned(storages: seq<StorageState>): multiset<Id> {
    if storages == [] then multiset{}
    else Owned(storages[..|storages| - 1]) + multiset(Inputs(storages[|storages| - 1]))
  }

  /** The references to values over a storage. */
  function Shared(values: seq<TensorValue>, s: Id): nat {
    if values == [] then 0
    else
      Shared(values[..|values| - 1], s)
      + if values[|values| - 1].storage == s then values[|values| - 1].references else 0
  }

  /** The bytes of the storages that are in use. */
  function Backing(storages: seq<StorageState>): nat {
    if storages == [] then 0
    else Backing(storages[..|storages| - 1]) + Size(storages[|storages| - 1])
  }

  function Size(s: StorageState): nat { if s.references > 0 then s.bytes else 0 }

  function Referred(values: seq<TensorValue>): nat {
    if values == [] then 0 else Referred(values[..|values| - 1]) + values[|values| - 1].references
  }

  /** The storages that still own inputs or have a payload. */
  function Busy(storages: seq<StorageState>): nat {
    if storages == [] then 0
    else Busy(storages[..|storages| - 1]) + if storages[|storages| - 1].producer.Some? then 1 else 0
  }

  lemma AddLast(a: multiset<Id>, b: multiset<Id>, last: multiset<Id>, less: multiset<Id>, more: multiset<Id>)
    requires b + less == a + more
    ensures (b + last) + less == (a + last) + more
  {
    assert (b + last) + less == (b + less) + last;
  }

  lemma {:induction false} StorageUpdate(storages: seq<StorageState>, i: nat, s: StorageState)
    requires i < |storages|
    ensures var after := storages[i := s];
            && Owned(after) + multiset(Inputs(storages[i])) == Owned(storages) + multiset(Inputs(s))
            && Backing(after) + Size(storages[i]) == Backing(storages) + Size(s)
            && Busy(after) + (if storages[i].producer.Some? then 1 else 0)
               == Busy(storages) + (if s.producer.Some? then 1 else 0)
  {
    hide Inputs, Size;
    var last := |storages| - 1;
    var after := storages[i := s];
    if i < last {
      StorageUpdate(storages[..last], i, s);
      assert after[..last] == storages[..last][i := s];
      AddLast(Owned(storages[..last]), Owned(after[..last]), multiset(Inputs(storages[last])),
              multiset(Inputs(storages[i])), multiset(Inputs(s)));
    } else {
      assert after[..last] == storages[..last];
    }
  }

  lemma {:induction false} ValueUpdate(values: seq<TensorValue>, i: nat, v: TensorValue, s: Id)
    requires i < |values| && v.storage == values[i].storage
    ensures Shared(values[i := v], s) + (if v.storage == s then values[i].references else 0)
         == Shared(values, s) + (if v.storage == s then v.references else 0)
    ensures Referred(values[i := v]) + values[i].references == Referred(values) + v.references
  {
    var last := |values| - 1;
    var after := values[i := v];
    if i < last {
      ValueUpdate(values[..last], i, v, s);
      assert after[..last] == values[..last][i := v];
    } else {
      assert after[..last] == values[..last];
    }
  }

  lemma {:induction false} Owner(storages: seq<StorageState>, v: Id) returns (s: nat)
    requires v in Owned(storages)
    ensures s < |storages| && v in Inputs(storages[s])
  {
    hide Inputs;
    var last := |storages| - 1;
    if v in Inputs(storages[last]) {
      s := last;
    } else {
      s := Owner(storages[..last], v);
    }
  }

  lemma {:induction false} Sharer(values: seq<TensorValue>, s: Id) returns (v: nat)
    requires Shared(values, s) > 0
    ensures v < |values| && values[v].storage == s && values[v].references > 0
  {
    var last := |values| - 1;
    if values[last].storage == s && values[last].references > 0 {
      v := last;
    } else {
      v := Sharer(values[..last], s);
    }
  }

  lemma {:induction false} SharedAtLeast(values: seq<TensorValue>, v: nat)
    requires v < |values|
    ensures Shared(values, values[v].storage) >= values[v].references
  {
    if v < |values| - 1 {
      SharedAtLeast(values[..|values| - 1], v);
    }
  }

  predicate ValueCounted(values: seq<TensorValue>, storages: seq<StorageState>, external: multiset<Id>, v: nat)
    requires v < |values|
  {
    values[v].references == Owned(storages)[v] + external[v] && values[v].storage < |storages|
  }

  /** A storage counts its values' references; without any it owns nothing and has no payload. */
  predicate StorageCounted(values: seq<TensorValue>, storages: seq<StorageState>, s: nat)
    requires s < |storages|
  {
    && storages[s].references == Shared(values, s)
    && (storages[s].references == 0 ==> storages[s].producer.None? && !storages[s].resident)
    && forall p :: 0 <= p < |Inputs(storages[s])| ==> Inputs(storages[s])[p] < |values|
  }

  predicate Counted(values: seq<TensorValue>, storages: seq<StorageState>, external: multiset<Id>) {
    && (forall v :: 0 <= v < |values| ==> ValueCounted(values, storages, external, v))
    && (forall s :: 0 <= s < |storages| ==> StorageCounted(values, storages, s))
    && (forall v :: v in external ==> v < |values|)
  }

  /** The state with one reference to a value, and to its storage, more or less. */
  function Referenced(v: TensorValue, references: nat): TensorValue { TensorValue(references, v.storage) }

  function Used(s: StorageState, references: nat): StorageState {
    StorageState(references, s.producer, s.resident, s.bytes)
  }

  /** A storage that nobody uses has given up its payload and its inputs. */
  function Emptied(s: StorageState): StorageState { StorageState(0, None, false, s.bytes) }

  lemma LiveReference(values: seq<TensorValue>, storages: seq<StorageState>, external: multiset<Id>, v: Id)
    requires Counted(values, storages, external) && v in external
    ensures v < |values| && values[v].references > 0 && values[v].storage < |storages|
    ensures storages[values[v].storage].references >= values[v].references
  {
    assert ValueCounted(values, storages, external, v);
    assert StorageCounted(values, storages, values[v].storage);
    SharedAtLeast(values, v);
    hide Owned, Shared;
  }

  /** Giving up one reference; the last one to a storage leaves its inputs to be given up. */
  lemma Drop(values: seq<TensorValue>, storages: seq<StorageState>, external: multiset<Id>, v: Id)
    requires Counted(values, storages, external) && v in external
    ensures v < |values| && values[v].references > 0 && values[v].storage < |storages|
    ensures storages[values[v].storage].references > 0
    ensures var s := values[v].storage;
            var last := storages[s].references == 1;
            var after := storages[s := if last then Emptied(storages[s])
                                  else Used(storages[s], storages[s].references - 1)];
            var rest := external - multiset{v} + if last then multiset(Inputs(storages[s])) else multiset{};
            Counted(values[v := Referenced(values[v], values[v].references - 1)], after, rest)
  {
    hide Owned, Shared, Inputs;
    LiveReference(values, storages, external, v);
    var s := values[v].storage;
    var last := storages[s].references == 1;
    var o := if last then Emptied(storages[s]) else Used(storages[s], storages[s].references - 1);
    EmptiedInputs(storages[s]);
    var less := Referenced(values[v], values[v].references - 1);
    var given := if last then multiset(Inputs(storages[s])) else multiset{};
    var values', storages', rest := values[v := less], storages[s := o], external - multiset{v} + given;
    StorageUpdate(storages, s, o);
    forall k | 0 <= k < |values'| ensures ValueCounted(values', storages', rest, k) {
      assert ValueCounted(values, storages, external, k);
      assert (Owned(storages') + multiset(Inputs(storages[s])))[k] == (Owned(storages) + multiset(Inputs(o)))[k];
    }
    forall k | 0 <= k < |storages'| ensures StorageCounted(values', storages', k) {
      assert StorageCounted(values, storages, k);
      ValueUpdate(values, v, less, k);
    }
    GivenInside(values, storages, external, s);
    hide Counted;
  }

  lemma EmptiedInputs(s: StorageState)
    ensures Inputs(Emptied(s)) == [] && forall n: nat :: Inputs(Used(s, n)) == Inputs(s)
  {
  }

  lemma GivenInside(values: seq<TensorValue>, storages: seq<StorageState>, external: multiset<Id>, s: nat)
    requires Counted(values, storages, external) && s < |storages|
    ensures forall k :: k in external ==> k < |values|
    ensures forall k :: k in multiset(Inputs(storages[s])) ==> k < |values|
  {
    assert StorageCounted(values, storages, s);
    hide Owned, Shared;
  }

  /** One more reference to a value that is in use. */
  lemma Retain(values: seq<TensorValue>, storages: seq<StorageState>, external: multiset<Id>, v: Id)
    requires Counted(values, storages, external) && v < |values| && values[v].storage < |storages|
    requires storages[values[v].storage].references > 0
    ensures var s := values[v].storage;
            Counted(values[v := Referenced(values[v], values[v].references + 1)],
                    storages[s := Used(storages[s], storages[s].references + 1)], external + multiset{v})
  {
    hide Owned, Shared, Inputs;
    var s := values[v].storage;
    var o, more := Used(storages[s], storages[s].references + 1), Referenced(values[v], values[v].references + 1);
    EmptiedInputs(storages[s]);
    var values', storages', rest := values[v := more], storages[s := o], external + multiset{v};
    StorageUpdate(storages, s, o);
    forall k | 0 <= k < |values'| ensures ValueCounted(values', storages', rest, k) {
      assert ValueCounted(values, storages, external, k);
      assert (Owned(storages') + multiset(Inputs(storages[s])))[k] == (Owned(storages) + multiset(Inputs(o)))[k];
    }
    forall k | 0 <= k < |storages'| ensures StorageCounted(values', storages', k) {
      assert StorageCounted(values, storages, k);
      ValueUpdate(values, v, more, k);
    }
    hide Counted;
  }

  /** A materialized storage needs its producer no longer; its inputs are left to be given up. */
  lemma Detach(values: seq<TensorValue>, storages: seq<StorageState>, external: multiset<Id>, s: Id)
    requires Counted(values, storages, external) && s < |storages|
    ensures Counted(values, storages[s := storages[s].(producer := None)], external + multiset(Inputs(storages[s])))
  {
    hide Owned, Shared;
    var o := storages[s].(producer := None);
    var storages', rest := storages[s := o], external + multiset(Inputs(storages[s]));
    StorageUpdate(storages, s, o);
    forall k | 0 <= k < |values| ensures ValueCounted(values, storages', rest, k) {
      assert ValueCounted(values, storages, external, k);
      assert (Owned(storages') + multiset(Inputs(storages[s])))[k] == (Owned(storages) + multiset(Inputs(o)))[k];
    }
    forall k | 0 <= k < |storages'| ensures StorageCounted(values, storages', k) {
      assert StorageCounted(values, storages, k);
    }
    GivenInside(values, storages, external, s);
    hide Counted;
  }

  /** A storage in use gets a payload. */
  lemma Resides(values: seq<TensorValue>, storages: seq<StorageState>, external: multiset<Id>, s: Id)
    requires Counted(values, storages, external) && s < |storages| && storages[s].references > 0
    ensures Counted(values, storages[s := storages[s].(resident := true)], external)
  {
    hide Owned, Shared;
    var o := storages[s].(resident := true);
    var storages' := storages[s := o];
    StorageUpdate(storages, s, o);
    forall k | 0 <= k < |values| ensures ValueCounted(values, storages', external, k) {
      assert ValueCounted(values, storages, external, k);
      assert (Owned(storages') + multiset(Inputs(storages[s])))[k] == (Owned(storages) + multiset(Inputs(o)))[k];
    }
    forall k | 0 <= k < |storages'| ensures StorageCounted(values, storages', k) {
      assert StorageCounted(values, storages, k);
    }
    hide Counted;
  }

  /** What happens to a storage while references are given up. */
  predicate FadesAt(before: seq<StorageState>, after: seq<StorageState>, s: nat)
    requires s < |before| == |after|
  {
    && after[s].references <= before[s].references && after[s].bytes == before[s].bytes
    && if after[s].references > 0
       then after[s].producer == before[s].producer && after[s].resident == before[s].resident
       else before[s].references == 0 ==> after[s] == before[s]
  }

  /** Storages only lose references, and keep their producer and payload until the last one. */
  predicate Fades(before: seq<StorageState>, after: seq<StorageState>) {
    |before| == |after| && forall s :: 0 <= s < |before| ==> FadesAt(before, after, s)
  }

  lemma FadesMore(a: seq<StorageState>, b: seq<StorageState>, c: seq<StorageState>)
    requires Fades(a, b) && Fades(b, c)
    ensures Fades(a, c)
  {
    forall s | 0 <= s < |a| ensures FadesAt(a, c, s) {
      assert FadesAt(a, b, s) && FadesAt(b, c, s);
    }
  }

  /** The storages without the producers of some of them. */
  function Without(storages: seq<StorageState>, given: seq<Id>): (r: seq<StorageState>)
    requires forall i :: 0 <= i < |given| ==> given[i] < |storages|
    ensures |r| == |storages|
    ensures forall t :: 0 <= t < |storages| ==>
              r[t] == if t in given then storages[t].(producer := None) else storages[t]
  {
    if given == [] then storages
    else
      var last := given[|given| - 1];
      var rest := Without(storages, given[..|given| - 1]);
      assert given == given[..|given| - 1] + [last];
      rest[last := rest[last].(producer := None)]
  }

  /** The storages of some values. */
  function StoragesOf(values: seq<TensorValue>, ids: seq<Id>): (r: seq<Id>)
    requires forall i :: 0 <= i < |ids| ==> ids[i] < |values|
    ensures |r| == |ids| && forall i :: 0 <= i < |ids| ==> r[i] == values[ids[i]].storage
  {
    seq(|ids|, i requires 0 <= i < |ids| => values[ids[i]].storage)
  }

  predicate Places(values: seq<TensorValue>, storages: seq<StorageState>, ids: seq<Id>) {
    forall i :: 0 <= i < |ids| ==> ids[i] < |values| && values[ids[i]].storage < |storages|
  }

  lemma WithoutNone(storages: seq<StorageState>, given: seq<Id>)
    ensures Without(storages, given[..0]) == storages
  {
  }

  /** A storage that gives up its producer does so whatever else it has lost. */
  lemma FadesWithout(before: seq<StorageState>, after: seq<StorageState>, s: nat)
    requires Fades(before, after) && s < |before|
    ensures Fades(before[s := before[s].(producer := None)], after[s := after[s].(producer := None)])
  {
    var a, b := before[s := before[s].(producer := None)], after[s := after[s].(producer := None)];
    forall k | 0 <= k < |a| ensures FadesAt(a, b, k) {
      assert FadesAt(before, after, k);
    }
  }

  lemma WithoutMore(storages: seq<StorageState>, given: seq<Id>, s: Id)
    requires forall i :: 0 <= i < |given| ==> given[i] < |storages|
    requires s < |storages|
    ensures var before := Without(storages, given);
            Without(storages, given + [s]) == before[s := before[s].(producer := None)]
  {
    var longer := given + [s];
    assert longer[..|longer| - 1] == given && longer[|longer| - 1] == s;
  }

  /** The same values over the same storages. */
  predicate SamePlaces(before: seq<TensorValue>, after: seq<TensorValue>) {
    |before| == |after| && forall v :: 0 <= v < |before| ==> after[v].storage == before[v].storage
  }

  /** The payloads given back are those of storages that had one and now have none, each once. */
  predicate GivenBack(before: seq<StorageState>, after: seq<StorageState>, released: seq<Id>) {
    && |before| == |after|
    && Distinct(released)
    && (forall s :: s in released ==> s < |before|)
    && (forall s :: 0 <= s < |before| ==> (before[s].resident && !after[s].resident <==> s in released))
    && (forall s :: 0 <= s < |before| ==> (after[s].resident ==> before[s].resident))
  }

  lemma GivenBackBoth(a: seq<StorageState>, b: seq<StorageState>, c: seq<StorageState>, first: seq<Id>, second: seq<Id>)
    requires GivenBack(a, b, first) && GivenBack(b, c, second)
    ensures GivenBack(a, c, first + second)
  {
    var both := first + second;
    forall i, j | 0 <= i < j < |both| ensures both[i] != both[j] {
      if i < |first| <= j {
        assert both[j] in second && both[i] in first;
      }
    }
    forall s | 0 <= s < |a| ensures a[s].resident && !c[s].resident <==> s in both {
      assert s in both <==> s in first || s in second;
    }
  }

  /** A producer was recorded over storages that were there before: what it owns lies further down. */
  predicate DescendsAt(values: seq<TensorValue>, storages: seq<StorageState>, s: nat)
    requires s < |storages|
  {
    forall p :: 0 <= p < |Inputs(storages[s])| ==>
      Inputs(storages[s])[p] < |values| && values[Inputs(storages[s])[p]].storage < s
  }

  predicate Descending(values: seq<TensorValue>, storages: seq<StorageState>) {
    forall s :: 0 <= s < |storages| ==> DescendsAt(values, storages, s)
  }

  /** Values stay over their storages, and storages only lose inputs. */
  predicate Keeps(values: seq<TensorValue>, storages: seq<StorageState>, values': seq<TensorValue>,
                  storages': seq<StorageState>) {
    && |values| <= |values'| && |storages| == |storages'|
    && (forall v :: 0 <= v < |values| ==> values'[v].storage == values[v].storage)
    && forall s :: 0 <= s < |storages| ==> Inputs(storages'[s]) == Inputs(storages[s]) || Inputs(storages'[s]) == []
  }

  lemma StillDescending(values: seq<TensorValue>, storages: seq<StorageState>, values': seq<TensorValue>,
                        storages': seq<StorageState>)
    requires Descending(values, storages) && Keeps(values, storages, values', storages')
    ensures Descending(values', storages')
  {
    hide Inputs;
    forall s | 0 <= s < |storages'| ensures DescendsAt(values', storages', s) {
      assert DescendsAt(values, storages, s);
    }
  }

  /** Values along producers: each is an input of the producer of the storage before. */
  predicate Chain(values: seq<TensorValue>, storages: seq<StorageState>, path: seq<Id>) {
    && path != [] && (forall i :: 0 <= i < |path| ==> path[i] < |values| && values[path[i]].storage < |storages|)
    && forall i :: 0 < i < |path| ==> path[i] in Inputs(storages[values[path[i - 1]].storage])
  }

  /** Some external reference leads to the storage over producers that still need it. */
  ghost predicate Reached(values: seq<TensorValue>, storages: seq<StorageState>, external: multiset<Id>, s: Id) {
    exists path: seq<Id> ::
      Chain(values, storages, path) && path[0] in external && values[path[|path| - 1]].storage == s
  }

  /** Counting alone keeps exactly the storages that can be reached. */
  lemma NothingLeaks(values: seq<TensorValue>, storages: seq<StorageState>, external: multiset<Id>, s: Id)
    requires Counted(values, storages, external) && Descending(values, storages) && s < |storages|
    ensures storages[s].references > 0 <==> Reached(values, storages, external, s)
  {
    hide Counted, Descending, Inputs;
    if storages[s].references > 0 {
      var path := Down(values, storages, external, s);
    }
    if Reached(values, storages, external, s) {
      var path :| Chain(values, storages, path) && path[0] in external && values[path[|path| - 1]].storage == s;
      ChainInUse(values, storages, external, path);
    }
  }

  lemma {:induction false} Down(values: seq<TensorValue>, storages: seq<StorageState>, external: multiset<Id>, s: Id)
    returns (path: seq<Id>)
    requires Counted(values, storages, external) && Descending(values, storages) && s < |storages|
    requires storages[s].references > 0
    ensures Chain(values, storages, path) && path[0] in external && values[path[|path| - 1]].storage == s
    decreases |storages| - s
  {
    hide Owned, Shared, Inputs;
    assert StorageCounted(values, storages, s);
    var v := Sharer(values, s);
    assert ValueCounted(values, storages, external, v);
    if v in external {
      path := [v];
    } else {
      var t := Owner(storages, v);
      assert StorageCounted(values, storages, t) && DescendsAt(values, storages, t);
      OwnerInUse(storages[t], v);
      path := Down(values, storages, external, t);
      ChainMore(values, storages, path, v);
      path := path + [v];
    }
    hide Counted, Descending, Chain;
  }

  lemma OwnerInUse(s: StorageState, v: Id)
    requires v in Inputs(s) && (s.references == 0 ==> s.producer.None?)
    ensures s.references > 0
  {
  }

  lemma ChainMore(values: seq<TensorValue>, storages: seq<StorageState>, path: seq<Id>, v: Id)
    requires Chain(values, storages, path) && v < |values| && values[v].storage < |storages|
    requires v in Inputs(storages[values[path[|path| - 1]].storage])
    ensures Chain(values, storages, path + [v])
  {
    hide Inputs;
    var longer := path + [v];
    forall i | 0 < i < |longer| ensures longer[i] in Inputs(storages[values[longer[i - 1]].storage]) {
      if i < |path| {
        assert path[i] in Inputs(storages[values[path[i - 1]].storage]);
      }
    }
  }

  lemma {:induction false} ChainInUse(values: seq<TensorValue>, storages: seq<StorageState>, external: multiset<Id>,
                                      path: seq<Id>)
    requires Counted(values, storages, external) && Chain(values, storages, path) && path[0] in external
    ensures storages[values[path[|path| - 1]].storage].references > 0
    decreases |path|
  {
    hide Owned, Shared, Inputs;
    var v := path[|path| - 1];
    if |path| > 1 {
      OwnedInput(storages, values[path[|path| - 2]].storage, v);
    }
    assert ValueCounted(values, storages, external, v) && StorageCounted(values, storages, values[v].storage);
    SharedAtLeast(values, v);
    hide Counted, Chain;
  }

  lemma {:induction false} OwnedInput(storages: seq<StorageState>, s: nat, v: Id)
    requires s < |storages| && v in Inputs(storages[s])
    ensures v in Owned(storages)
  {
    hide Inputs;
    if s < |storages| - 1 {
      OwnedInput(storages[..|storages| - 1], s, v);
    }
  }

  /** One turn of a release, with everything that it keeps up to date. */
  lemma Dropping(values: seq<TensorValue>, storages: seq<StorageState>, external: multiset<Id>, v: Id)
    requires Counted(values, storages, external) && v in external
    ensures v < |values| && values[v].references > 0 && values[v].storage < |storages|
    ensures storages[values[v].storage].references > 0
    ensures var s := values[v].storage;
            var last := storages[s].references == 1;
            var after := storages[s := if last then Emptied(storages[s])
                                  else Used(storages[s], storages[s].references - 1)];
            && Fades(storages, after)
            && Referred(values[v := Referenced(values[v], values[v].references - 1)]) + 1 == Referred(values)
            && Backing(after) + (if last then storages[s].bytes else 0) == Backing(storages)
            && Busy(after) + (if last && storages[s].producer.Some? then 1 else 0) == Busy(storages)
  {
    LiveReference(values, storages, external, v);
    var s := values[v].storage;
    StorageUpdate(storages, s, if storages[s].references == 1 then Emptied(storages[s])
                               else Used(storages[s], storages[s].references - 1));
    ValueUpdate(values, v, Referenced(values[v], values[v].references - 1), s);
    hide Owned, Shared, Counted, Backing, Busy, Referred;
  }

  /** A new value over a new storage takes over the references that its producer owns. */
  lemma Admitted(values: seq<TensorValue>, storages: seq<StorageState>, external: multiset<Id>, state: StorageState,
                 rest: multiset<Id>)
    requires Counted(values, storages, rest + multiset(Inputs(state))) && state.references == 1
    requires external == rest + multiset{|values|}
    ensures Counted(values + [TensorValue(1, |storages|)], storages + [state], external)
    ensures Referred(values + [TensorValue(1, |storages|)]) == Referred(values) + 1
    ensures Backing(storages + [state]) == Backing(storages) + state.bytes
  {
    var values', storages' := values + [TensorValue(1, |storages|)], storages + [state];
    assert values'[..|values|] == values && storages'[..|storages|] == storages;
    hide Owned, Shared, Counted, Inputs;
    OwnedInside(values, storages, rest + multiset(Inputs(state)));
    InputsInside(values, storages, rest, state);
    forall k | 0 <= k < |values'| ensures ValueCounted(values', storages', external, k) {
      AdmittedValue(values, storages, rest, state, k);
    }
    forall k | 0 <= k < |storages'| ensures StorageCounted(values', storages', k) {
      AdmittedStorage(values, storages, rest, state, k);
    }
    AdmittedCounted(values', storages', external);
    hide Referred, Backing;
  }

  lemma AdmittedCounted(values: seq<TensorValue>, storages: seq<StorageState>, external: multiset<Id>)
    requires forall k :: 0 <= k < |values| ==> ValueCounted(values, storages, external, k)
    requires forall k :: 0 <= k < |storages| ==> StorageCounted(values, storages, k)
    requires forall k :: k in external ==> k < |values|
    ensures Counted(values, storages, external)
  {
    hide ValueCounted, StorageCounted;
  }

  lemma AdmittedValue(values: seq<TensorValue>, storages: seq<StorageState>, rest: multiset<Id>, state: StorageState,
                      k: nat)
    requires Counted(values, storages, rest + multiset(Inputs(state))) && k <= |values|
    requires forall v :: v in Owned(storages) ==> v < |values|
    requires forall v :: v in rest ==> v < |values|
    requires forall p :: 0 <= p < |Inputs(state)| ==> Inputs(state)[p] < |values|
    ensures ValueCounted(values + [TensorValue(1, |storages|)], storages + [state], rest + multiset{|values|}, k)
  {
    var storages' := storages + [state];
    assert storages'[..|storages|] == storages;
    assert Owned(storages') == Owned(storages) + multiset(Inputs(state));
    if k < |values| {
      assert ValueCounted(values, storages, rest + multiset(Inputs(state)), k);
    } else {
      assert k !in Owned(storages) && k !in rest && k !in Inputs(state);
    }
    hide Owned, Counted, Inputs;
  }

  lemma AdmittedStorage(values: seq<TensorValue>, storages: seq<StorageState>, rest: multiset<Id>,
                        state: StorageState, k: nat)
    requires Counted(values, storages, rest + multiset(Inputs(state))) && k <= |storages| && state.references == 1
    requires forall p :: 0 <= p < |Inputs(state)| ==> Inputs(state)[p] < |values|
    ensures StorageCounted(values + [TensorValue(1, |storages|)], storages + [state], k)
  {
    var values' := values + [TensorValue(1, |storages|)];
    assert values'[..|values|] == values;
    assert Shared(values', k) == Shared(values, k) + if k == |storages| then 1 else 0;
    if k < |storages| {
      assert StorageCounted(values, storages, k);
    } else {
      NoneShared(values, storages, rest + multiset(Inputs(state)), |values|);
      assert values[..|values|] == values;
    }
    hide Shared, Counted, Inputs;
  }

  lemma InputsInside(values: seq<TensorValue>, storages: seq<StorageState>, rest: multiset<Id>, state: StorageState)
    requires Counted(values, storages, rest + multiset(Inputs(state)))
    ensures forall k :: k in rest ==> k < |values|
    ensures forall p :: 0 <= p < |Inputs(state)| ==> Inputs(state)[p] < |values|
  {
    hide ValueCounted, StorageCounted;
    forall p | 0 <= p < |Inputs(state)| ensures Inputs(state)[p] < |values| {
      assert Inputs(state)[p] in rest + multiset(Inputs(state));
    }
    assert forall k :: k in rest ==> k in rest + multiset(Inputs(state));
  }

  lemma OwnedInside(values: seq<TensorValue>, storages: seq<StorageState>, external: multiset<Id>)
    requires Counted(values, storages, external)
    ensures forall k :: k in Owned(storages) ==> k < |values|
  {
    forall k | k in Owned(storages) ensures k < |values| {
      var s := Owner(storages, k);
      assert StorageCounted(values, storages, s);
    }
    hide Owned, Shared;
  }

  lemma {:induction false} NoneShared(values: seq<TensorValue>, storages: seq<StorageState>, external: multiset<Id>,
                                      n: nat)
    requires Counted(values, storages, external) && n <= |values|
    ensures Shared(values[..n], |storages|) == 0
  {
    if n > 0 {
      NoneShared(values, storages, external, n - 1);
      assert ValueCounted(values, storages, external, n - 1);
      assert values[..n][..n - 1] == values[..n - 1];
    } else {
      assert values[..0] == [];
    }
    hide Counted;
  }

  class SessionValues {
    var values: seq<TensorValue>
    var storages: seq<StorageState>
    var valueReferences: nat
    var liveBackingBytes: nat

    ghost predicate Consistent(external: multiset<Id>)
      reads this
    {
      && Counted(values, storages, external) && Descending(values, storages)
      && valueReferences == Referred(values) && liveBackingBytes == Backing(storages)
    }

    constructor ()
      ensures Consistent(multiset{}) && values == [] && storages == []
    {
      values, storages, valueReferences, liveBackingBytes := [], [], 0, 0;
    }

    /** One more owner of a value whose storage is in use. */
    method RetainValue(value: Id, ghost external: multiset<Id>)
      requires Consistent(external) && InUse(values, storages, value)
      modifies this
      ensures Consistent(external + multiset{value})
      ensures values == old(values)[value := Referenced(old(values)[value], old(values)[value].references + 1)]
      ensures storages == old(storages)[values[value].storage := Used(old(storages)[values[value].storage],
                                          old(storages)[values[value].storage].references + 1)]
    {
      hide Counted, Descending, Referred, Backing, Busy, Owned, Shared;
      var s := values[value].storage;
      var more := Referenced(values[value], values[value].references + 1);
      var used := Used(storages[s], storages[s].references + 1);
      Retain(values, storages, external, value);
      StorageUpdate(storages, s, used);
      ValueUpdate(values, value, more, s);
      UpdateKeeps(values, storages, value, more, s, used);
      StillDescending(values, storages, values[value := more], storages[s := used]);
      values := values[value := more];
      valueReferences := valueReferences + 1;
      storages := storages[s := used];
    }

    /** Another value over the storage of one that is in use. */
    method BorrowValue(source: Id, ghost external: multiset<Id>) returns (value: Id)
      requires Consistent(external) && InUse(values, storages, source)
      modifies this
      ensures Consistent(external + multiset{value}) && value == |old(values)|
      ensures values == old(values) + [TensorValue(1, old(values)[source].storage)]
      ensures storages == old(storages)[old(values)[source].storage := Used(old(storages)[old(values)[source].storage],
                                          old(storages)[old(values)[source].storage].references + 1)]
    {
      hide Counted, Descending, Referred, Backing, Busy, Owned, Shared;
      value := |values|;
      var s := values[source].storage;
      var used := Used(storages[s], storages[s].references + 1);
      Added(values, storages, external, s);
      AddedReferences(values, s);
      StorageUpdate(storages, s, used);
      UpdateKeeps(values, storages, source, values[source], s, used);
      assert values[source := values[source]] == values;
      LongerKeeps(values, storages, storages[s := used], TensorValue(1, s));
      StillDescending(values, storages, values + [TensorValue(1, s)], storages[s := used]);
      values := values + [TensorValue(1, s)];
      valueReferences := valueReferences + 1;
      storages := storages[s := used];
    }

    /**
     * Gives up one reference. Every storage that loses its last one gives back
     * its payload, once, and gives up the inputs of its producer in turn.
     */
    method ReleaseValue(value: Id, ghost external: multiset<Id>) returns (released: seq<Id>)
      requires Consistent(external + multiset{value})
      modifies this
      ensures Consistent(external) && Fades(old(storages), storages) && GivenBack(old(storages), storages, released)
      ensures SamePlaces(old(values), values)
    {
      hide Consistent, Busy, Fades, GivenBack;
      released := [];
      var pending := [value];
      Unchanged(storages);
      while pending != []
        invariant Consistent(external + multiset(pending)) && Fades(old(storages), storages)
        invariant SamePlaces(old(values), values)
        invariant GivenBack(old(storages), storages, released)
        decreases Busy(storages), |pending|
      {
        ghost var before := storages;
        var current := pending[|pending| - 1];
        assert pending == pending[..|pending| - 1] + [current];
        assert external + multiset(pending) == external + multiset(pending[..|pending| - 1]) + multiset{current};
        pending := pending[..|pending| - 1];
        var given, inputs := ReleaseOne(current, external + multiset(pending));
        ReverseSame(inputs);
        assert external + multiset(pending + Reverse(inputs)) == external + multiset(pending) + multiset(inputs);
        pending := pending + Reverse(inputs);
        FadesMore(old(storages), before, storages);
        GivenBackBoth(old(storages), before, storages, released, given);
        released := released + given;
      }
      assert external + multiset(pending) == external;
    }

    /** One reference less; the inputs that a storage owned are left to be given up with its last one. */
    method ReleaseOne(current: Id, ghost external: multiset<Id>) returns (given: seq<Id>, inputs: seq<Id>)
      requires Consistent(external + multiset{current})
      modifies this
      ensures Consistent(external + multiset(inputs)) && Fades(old(storages), storages)
      ensures GivenBack(old(storages), storages, given) && SamePlaces(old(values), values)
      ensures Busy(storages) < Busy(old(storages)) || (Busy(storages) == Busy(old(storages)) && inputs == [])
    {
      hide Counted, Descending, Referred, Backing, Busy, Owned, Shared, Fades, GivenBack, Reverse;
      ghost var owed := external + multiset{current};
      Dropping(values, storages, owed, current);
      Drop(values, storages, owed, current);
      var s := values[current].storage;
      var storage := storages[s];
      var less := Referenced(values[current], values[current].references - 1);
      ghost var after := if storage.references == 1 then Emptied(storage) else Used(storage, storage.references - 1);
      GivenBackOne(storages, s, after);
      UpdateKeeps(values, storages, current, less, s, after);
      StillDescending(values, storages, values[current := less], storages[s := after]);
      values := values[current := less];
      valueReferences := valueReferences - 1;
      given, inputs := [], [];
      assert owed - multiset{current} == external;
      if storage.references > 1 {
        storages := storages[s := Used(storage, storage.references - 1)];
      } else {
        liveBackingBytes := liveBackingBytes - storage.bytes;
        given := if storage.resident then [s] else [];
        inputs := Inputs(storage);
        storages := storages[s := Emptied(storage)];
        NoInputs(storage);
      }
    }

    /** Once a result is materialized its producer's inputs are given up. */
    method ReleaseDependencies(s: Id, ghost external: multiset<Id>) returns (released: seq<Id>)
      requires Consistent(external) && s < |storages|
      modifies this
      ensures Consistent(external) && GivenBack(old(storages), storages, released)
      ensures Fades(old(storages)[s := old(storages)[s].(producer := None)], storages)
      ensures SamePlaces(old(values), values)
    {
      hide Consistent, Fades, GivenBack;
      var inputs := Inputs(storages[s]);
      DetachProducer(s, external);
      ghost var detached := storages;
      Detached(old(storages), s);
      Unchanged(storages);
      released := [];
      var i := 0;
      assert inputs[0..] == inputs;
      while i < |inputs|
        invariant i <= |inputs| && Consistent(external + multiset(inputs[i..])) && Fades(detached, storages)
        invariant SamePlaces(old(values), values)
        invariant GivenBack(old(storages), storages, released)
      {
        ghost var before := storages;
        assert inputs[i..] == [inputs[i]] + inputs[i + 1..];
        assert external + multiset(inputs[i..]) == external + multiset(inputs[i + 1..]) + multiset{inputs[i]};
        var more := ReleaseValue(inputs[i], external + multiset(inputs[i + 1..]));
        FadesMore(detached, before, storages);
        GivenBackBoth(old(storages), before, storages, released, more);
        released := released + more;
        i := i + 1;
      }
      assert external + multiset(inputs[i..]) == external;
    }

    /** The results of a program need their producers no longer. */
    method ReleaseCompletedDependencies(computed: seq<Id>, ghost external: multiset<Id>) returns (released: seq<Id>)
      requires Consistent(external) && Places(values, storages, computed)
      modifies this
      ensures Consistent(external) && SamePlaces(old(values), values)
      ensures GivenBack(old(storages), storages, released)
      ensures Places(old(values), old(storages), computed)
              && Fades(Without(old(storages), StoragesOf(old(values), computed)), storages)
    {
      hide Consistent, Fades, GivenBack, Without;
      released := [];
      Unchanged(storages);
      ghost var given := StoragesOf(values, computed);
      WithoutNone(storages, given);
      for i := 0 to |computed|
        invariant Consistent(external) && SamePlaces(old(values), values) && |storages| == |old(storages)|
        invariant GivenBack(old(storages), storages, released)
        invariant Fades(Without(old(storages), given[..i]), storages)
      {
        ghost var before := storages;
        var s := values[computed[i]].storage;
        assert given[..i + 1] == given[..i] + [s];
        WithoutMore(old(storages), given[..i], s);
        FadesWithout(Without(old(storages), given[..i]), storages, s);
        var more := ReleaseDependencies(s, external);
        FadesMore(Without(old(storages), given[..i + 1]), before[s := before[s].(producer := None)], storages);
        GivenBackBoth(old(storages), before, storages, released, more);
        released := released + more;
      }
      assert given[..|computed|] == given;
    }

    /** A payload for a storage in use. */
    method SetResident(s: Id, ghost external: multiset<Id>)
      requires Consistent(external) && s < |storages| && storages[s].references > 0
      modifies `storages
      ensures Consistent(external) && storages == old(storages)[s := old(storages)[s].(resident := true)]
    {
      hide Counted, Descending, Referred, Backing, Busy, Owned, Shared;
      var o := storages[s].(resident := true);
      Resides(values, storages, external, s);
      StorageUpdate(storages, s, o);
      UpdateKeepsPlace(values, storages, s, o);
      StillDescending(values, storages, values, storages[s := o]);
      storages := storages[s := o];
    }

    method DetachProducer(s: Id, ghost external: multiset<Id>)
      requires Consistent(external) && s < |storages|
      modifies `storages
      ensures Consistent(external + multiset(Inputs(old(storages)[s])))
      ensures storages == old(storages)[s := old(storages)[s].(producer := None)]
    {
      hide Counted, Descending, Referred, Backing, Busy, Owned, Shared;
      var o := storages[s].(producer := None);
      Detach(values, storages, external, s);
      StorageUpdate(storages, s, o);
      DetachKeeps(values, storages, s);
      StillDescending(values, storages, values, storages[s := o]);
      storages := storages[s := o];
    }

    /** A new value, with its producer's references to its inputs. */
    method Admit(producer: Option<seq<Id>>, resident: bool, bytes: nat,
                 ghost external: multiset<Id>) returns (value: Id)
      requires Consistent(external)
      requires producer.Some? ==> forall p :: 0 <= p < |producer.value| ==> InUse(values, storages, producer.value[p])
      modifies this
      ensures Consistent(external + multiset{value}) && value == |old(values)| && |values| == value + 1
      ensures |storages| == |old(storages)| + 1
      ensures storages[|storages| - 1] == StorageState(1, producer, resident, bytes)
      ensures values[value] == TensorValue(1, |storages| - 1)
    {
      hide Counted, Descending, Referred, Backing, Owned, Shared, InUse, Inputs;
      var state := StorageState(1, producer, resident, bytes);
      var inputs := if producer.Some? then producer.value else [];
      RetainInputs(inputs, external);
      value := |values|;
      InputsOf(state);
      Admitted(values, storages, external + multiset{value}, state, external);
      AdmittedDescends(values, storages, state);
      values := values + [TensorValue(1, |storages|)];
      storages := storages + [state];
      valueReferences := valueReferences + 1;
      liveBackingBytes := liveBackingBytes + bytes;
    }

    method RetainInputs(inputs: seq<Id>, ghost external: multiset<Id>)
      requires Consistent(external) && forall p :: 0 <= p < |inputs| ==> InUse(values, storages, inputs[p])
      modifies this
      ensures Consistent(external + multiset(inputs)) && |values| == |old(values)| && |storages| == |old(storages)|
      ensures forall p :: 0 <= p < |inputs| ==> InUse(values, storages, inputs[p])
    {
      hide Consistent;
      assert external + multiset(inputs[..0]) == external;
      for p := 0 to |inputs|
        invariant Consistent(external + multiset(inputs[..p])) && |values| == |old(values)|
        invariant |storages| == |old(storages)|
        invariant forall q :: 0 <= q < |inputs| ==> InUse(values, storages, inputs[q])
      {
        RetainValue(inputs[p], external + multiset(inputs[..p]));
        assert inputs[..p + 1] == inputs[..p] + [inputs[p]];
        assert external + multiset(inputs[..p]) + multiset{inputs[p]} == external + multiset(inputs[..p + 1]);
      }
      assert inputs[..|inputs|] == inputs;
    }
  }

  /** Another value over a storage counts for both. */
  lemma Added(values: seq<TensorValue>, storages: seq<StorageState>, external: multiset<Id>, s: nat)
    requires Counted(values, storages, external) && s < |storages| && storages[s].references > 0
    ensures Counted(values + [TensorValue(1, s)], storages[s := Used(storages[s], storages[s].references + 1)],
                    external + multiset{|values|})
  {
    hide Owned, Shared, Inputs;
    var o := Used(storages[s], storages[s].references + 1);
    EmptiedInputs(storages[s]);
    var values', storages', rest := values + [TensorValue(1, s)], storages[s := o], external + multiset{|values|};
    StorageUpdate(storages, s, o);
    OwnedInside(values, storages, external);
    forall k | 0 <= k < |values'| ensures ValueCounted(values', storages', rest, k) {
      assert k < |values| ==> ValueCounted(values, storages, external, k);
      assert (Owned(storages') + multiset(Inputs(storages[s])))[k] == (Owned(storages) + multiset(Inputs(o)))[k];
    }
    forall k | 0 <= k < |storages'| ensures StorageCounted(values', storages', k) {
      assert StorageCounted(values, storages, k);
      SharedLonger(values, TensorValue(1, s), k);
    }
    hide Counted;
  }

  lemma SharedLonger(values: seq<TensorValue>, v: TensorValue, s: Id)
    ensures Shared(values + [v], s) == Shared(values, s) + if v.storage == s then v.references else 0
  {
    assert (values + [v])[..|values|] == values;
  }

  lemma AddedReferences(values: seq<TensorValue>, s: Id)
    ensures Referred(values + [TensorValue(1, s)]) == Referred(values) + 1
  {
    assert (values + [TensorValue(1, s)])[..|values|] == values;
  }

  lemma UpdateKeeps(values: seq<TensorValue>, storages: seq<StorageState>, v: Id, value: TensorValue, s: nat,
                    o: StorageState)
    requires v < |values| && s < |storages| && value.storage == values[v].storage
    requires o.producer == storages[s].producer || o.producer == None
    ensures Keeps(values, storages, values[v := value], storages[s := o])
  {
  }

  lemma DetachKeeps(values: seq<TensorValue>, storages: seq<StorageState>, s: nat)
    requires s < |storages|
    ensures Keeps(values, storages, values, storages[s := storages[s].(producer := None)])
  {
  }

  lemma UpdateKeepsPlace(values: seq<TensorValue>, storages: seq<StorageState>, s: nat, o: StorageState)
    requires s < |storages| && o.producer == storages[s].producer
    ensures Keeps(values, storages, values, storages[s := o])
  {
  }

  lemma LongerKeeps(values: seq<TensorValue>, storages: seq<StorageState>, storages': seq<StorageState>, v: TensorValue)
    requires Keeps(values, storages, values, storages')
    ensures Keeps(values, storages, values + [v], storages')
  {
    hide Inputs;
  }

  lemma InputsOf(s: StorageState)
    ensures Inputs(s) == if s.producer.Some? then s.producer.value else []
  {
  }

  lemma AdmittedDescends(values: seq<TensorValue>, storages: seq<StorageState>, state: StorageState)
    requires Descending(values, storages)
    requires forall p :: 0 <= p < |Inputs(state)| ==> InUse(values, storages, Inputs(state)[p])
    ensures Descending(values + [TensorValue(1, |storages|)], storages + [state])
  {
    hide Inputs;
    var values', storages' := values + [TensorValue(1, |storages|)], storages + [state];
    forall s | 0 <= s < |storages'| ensures DescendsAt(values', storages', s) {
      if s < |storages| {
        assert DescendsAt(values, storages, s);
      } else {
        assert forall p :: 0 <= p < |Inputs(state)| ==> InUse(values, storages, Inputs(state)[p]);
      }
    }
  }

  predicate InUse(values: seq<TensorValue>, storages: seq<StorageState>, v: Id) {
    v < |values| && values[v].storage < |storages| && storages[values[v].storage].references > 0
  }

  lemma Unchanged(storages: seq<StorageState>)
    ensures Fades(storages, storages) && GivenBack(storages, storages, [])
  {
  }

  lemma GivenBackOne(storages: seq<StorageState>, s: nat, o: StorageState)
    requires s < |storages| && (o.resident ==> storages[s].resident)
    ensures GivenBack(storages, storages[s := o], if storages[s].resident && !o.resident then [s] else [])
  {
  }

  lemma Detached(storages: seq<StorageState>, s: nat)
    requires s < |storages|
    ensures GivenBack(storages, storages[s := storages[s].(producer := None)], [])
  {
  }

  lemma NoInputs(s: StorageState)
    ensures s.producer.None? ==> Inputs(s) == []
  {
  }
}
