/**
 * Running a program on the GPU: buffers are objects of fixed size, and a buffer
 * whose last reader has been encoded may become the output of a later
 * computation of exactly its size. Commands take effect in the order encoded.
 */
module GpuPool {
  import opened Options
  import opened Programs
  import opened ProgramFormation
  import opened InvocationUses

  datatype Buffer = Buffer(id: nat, byteLength: nat)

  datatype Invocation = Invocation(
    values: seq<ProgramValue>, computations: seq<Computation>, bindings: map<Slot, Materialization<Buffer>>,
    retained: seq<bool>,
    before: map<nat, Bytes>, next: nat)

  predicate Borrowed(x: Invocation, s: Slot) { s in x.bindings && x.bindings[s].Resident? }

  predicate Protected(x: Invocation, s: Slot) { (s < |x.retained| && x.retained[s]) || Borrowed(x, s) }

  /** Where a buffer made by this invocation is. */
  datatype Place = InSlot(slot: Slot) | InPool(size: nat, index: nat) | Elsewhere

  type Pool = map<nat, seq<Buffer>>

  /** The slot holds a buffer with the contents of its evaluation, borrowed or placed there. */
  predicate Holding(x: Invocation, env: Environment, held: map<Slot, Buffer>, contents: map<nat, Bytes>,
                    place: map<nat, Place>, s: Slot)
    requires s in held
  {
    var b := held[s];
    && s in env && s < |x.values| && b.byteLength == ByteLength(x.values[s].shape)
    && b.id in contents && contents[b.id] == env[s]
    && (if Borrowed(x, s) then b == x.bindings[s].allocation && b.id in x.before
        else b.id in place && place[b.id] == InSlot(s))
  }

  predicate Pooled(contents: map<nat, Bytes>, place: map<nat, Place>, pool: Pool, n: nat, i: nat)
    requires n in pool && i < |pool[n]|
  {
    var b := pool[n][i];
    b.byteLength == n && b.id in contents && b.id in place && place[b.id] == InPool(n, i)
  }

  ghost predicate State(x: Invocation, env: Environment, held: map<Slot, Buffer>, contents: map<nat, Bytes>,
                        place: map<nat, Place>, pool: Pool)
  {
    && (forall s :: s in held ==> Holding(x, env, held, contents, place, s))
    && (forall n, i :: n in pool && 0 <= i < |pool[n]| ==> Pooled(contents, place, pool, n, i))
    && contents.Keys == x.before.Keys + place.Keys && x.before.Keys !! place.Keys
    && (forall id :: id in x.before ==> contents[id] == x.before[id])
    && (forall id :: id in place ==> id >= x.next)
  }

  predicate Counted(x: Invocation, k: nat, pending: seq<Slot>, uses: seq<int>, s: Slot)
    requires k <= |x.computations| && s < |uses|
  {
    uses[s] == Uses(x.values, pending, s) + UsesFrom(x.values, x.computations, k, s)
  }

  predicate Kept(x: Invocation, env: Environment, held: map<Slot, Buffer>, uses: seq<int>, s: Slot)
    requires s < |uses|
  {
    s in env ==> (s in held <==> Protected(x, s) || uses[s] > 0 || UsesFrom(x.values, x.computations, 0, s) == 0)
  }

  ghost predicate Counts(x: Invocation, k: nat, pending: seq<Slot>, env: Environment, held: map<Slot, Buffer>,
                         uses: seq<int>)
  {
    && k <= |x.computations| && |uses| == |x.values|
    && (forall s :: 0 <= s < |uses| ==> Counted(x, k, pending, uses, s) && Kept(x, env, held, uses, s))
  }

  /** A new or pooled buffer is written as the contents of a slot that had none. */
  lemma StateWritten(x: Invocation, env: Environment, held: map<Slot, Buffer>, contents: map<nat, Bytes>,
                     place: map<nat, Place>, pool: Pool, s: Slot, b: Buffer, data: Bytes)
    requires State(x, env, held, contents, place, pool) && s !in held && !Borrowed(x, s) && s < |x.values|
    requires b.byteLength == ByteLength(x.values[s].shape) && b.id !in x.before && b.id in place
    requires forall t :: t in held && !Borrowed(x, t) ==> held[t].id != b.id
    requires forall n, i :: n in pool && 0 <= i < |pool[n]| ==> pool[n][i].id != b.id
    ensures State(x, env[s := data], held[s := b], contents[b.id := data], place[b.id := InSlot(s)], pool)
  {
    var held', contents', place' := held[s := b], contents[b.id := data], place[b.id := InSlot(s)];
    forall t | t in held' ensures Holding(x, env[s := data], held', contents', place', t) {
      if t != s {
        assert Holding(x, env, held, contents, place, t);
      }
    }
    forall n, i | n in pool && 0 <= i < |pool[n]| ensures Pooled(contents', place', pool, n, i) {
      assert Pooled(contents, place, pool, n, i);
    }
    hide ByteLength;
  }

  /** Taking the last buffer of a size out of the pool leaves it to be placed. */
  lemma StatePopped(x: Invocation, env: Environment, held: map<Slot, Buffer>, contents: map<nat, Bytes>,
                    place: map<nat, Place>, pool: Pool, n: nat)
    requires State(x, env, held, contents, place, pool) && n in pool && pool[n] != []
    ensures var b, pool' := pool[n][|pool[n]| - 1], pool[n := pool[n][..|pool[n]| - 1]];
            && b.byteLength == n && b.id !in x.before && b.id in place && b.id in contents
            && State(x, env, held, contents, place, pool')
            && (forall t :: t in held && !Borrowed(x, t) ==> held[t].id != b.id)
            && (forall m, i :: m in pool' && 0 <= i < |pool'[m]| ==> pool'[m][i].id != b.id)
  {
    var last := |pool[n]| - 1;
    var b := pool[n][last];
    var pool': Pool := pool[n := pool[n][..last]];
    assert Pooled(contents, place, pool, n, last);
    forall t | t in held && !Borrowed(x, t) ensures held[t].id != b.id {
      assert Holding(x, env, held, contents, place, t);
    }
    forall m, i | m in pool' && 0 <= i < |pool'[m]|
      ensures pool'[m][i].id != b.id && Pooled(contents, place, pool', m, i)
    {
      assert Pooled(contents, place, pool, m, i);
    }
    hide ByteLength;
  }

  function PoolOf(pool: Pool, n: nat): seq<Buffer> { if n in pool then pool[n] else [] }

  /** A buffer of our own that is no longer needed joins the pool of its size. */
  lemma StateRetired(x: Invocation, env: Environment, held: map<Slot, Buffer>, contents: map<nat, Bytes>,
                     place: map<nat, Place>, pool: Pool, s: Slot)
    requires State(x, env, held, contents, place, pool) && s in held && !Borrowed(x, s)
    ensures var b := held[s];
            var list := PoolOf(pool, b.byteLength);
            State(x, env, held - {s}, contents, place[b.id := InPool(b.byteLength, |list|)],
                  pool[b.byteLength := list + [b]])
  {
    var b := held[s];
    var n, list := b.byteLength, PoolOf(pool, b.byteLength);
    var held', place', pool' := held - {s}, place[b.id := InPool(n, |list|)], pool[n := list + [b]];
    assert Holding(x, env, held, contents, place, s);
    forall t | t in held' ensures Holding(x, env, held', contents, place', t) {
      assert Holding(x, env, held, contents, place, t);
    }
    forall m, i | m in pool' && 0 <= i < |pool'[m]| ensures Pooled(contents, place', pool', m, i) {
      if m != n || i < |list| {
        assert Pooled(contents, place, pool, m, i);
      }
    }
    assert place'.Keys == place.Keys;
    hide ByteLength;
  }

  lemma StateBorrowed(x: Invocation, env: Environment, held: map<Slot, Buffer>, contents: map<nat, Bytes>,
                      place: map<nat, Place>, pool: Pool, s: Slot)
    requires State(x, env, held, contents, place, pool) && s !in held && Borrowed(x, s) && s < |x.values|
    requires var b := x.bindings[s].allocation;
             b.id in x.before && b.byteLength == ByteLength(x.values[s].shape)
    ensures var b := x.bindings[s].allocation;
            State(x, env[s := x.before[b.id]], held[s := b], contents, place, pool)
  {
    var b := x.bindings[s].allocation;
    var held' := held[s := b];
    forall t | t in held' ensures Holding(x, env[s := x.before[b.id]], held', contents, place, t) {
      if t != s {
        assert Holding(x, env, held, contents, place, t);
      }
    }
    hide ByteLength;
  }

  /** A buffer of a new identity, not in any slot. */
  lemma StateCreated(x: Invocation, env: Environment, held: map<Slot, Buffer>, contents: map<nat, Bytes>,
                     place: map<nat, Place>, pool: Pool, id: nat, data: Bytes)
    requires State(x, env, held, contents, place, pool) && id !in contents && id >= x.next
    ensures State(x, env, held, contents[id := data], place[id := Elsewhere], pool)
    ensures id !in x.before
    ensures forall t :: t in held && !Borrowed(x, t) ==> held[t].id != id
    ensures forall n, i :: n in pool && 0 <= i < |pool[n]| ==> pool[n][i].id != id
  {
    var contents', place' := contents[id := data], place[id := Elsewhere];
    forall t | t in held ensures held[t].id != id && Holding(x, env, held, contents', place', t) {
      assert Holding(x, env, held, contents, place, t);
    }
    forall n, i | n in pool && 0 <= i < |pool[n]| ensures pool[n][i].id != id && Pooled(contents', place', pool, n, i) {
      assert Pooled(contents, place, pool, n, i);
    }
    hide ByteLength;
  }

  /** What a slot is known to hold. */
  lemma HeldIs(x: Invocation, env: Environment, held: map<Slot, Buffer>, contents: map<nat, Bytes>,
               place: map<nat, Place>, pool: Pool, s: Slot)
    requires State(x, env, held, contents, place, pool) && s in held
    ensures s in env && held[s].id in contents && contents[held[s].id] == env[s]
    ensures !Borrowed(x, s) ==> held[s].id in place && held[s].id !in x.before
    ensures s < |x.values| && held[s].byteLength == ByteLength(x.values[s].shape)
  {
    assert Holding(x, env, held, contents, place, s);
    hide ByteLength;
  }

  function HeldAfter(x: Invocation, held: map<Slot, Buffer>, uses: seq<int>, slot: Slot): map<Slot, Buffer>
    requires slot < |uses|
  {
    if !Protected(x, slot) && uses[slot] == 1 then held - {slot} else held
  }

  lemma CompletedSlot(x: Invocation, k: nat, input: Slot, pending: seq<Slot>, env: Environment,
                      held: map<Slot, Buffer>, uses: seq<int>, slot: Slot, s: Slot)
    requires Counts(x, k, [input] + pending, env, held, uses) && StorageOf(x.values, input) == slot
    requires slot < |uses| && slot in env && s < |uses|
    requires UsesFrom(x.values, x.computations, 0, slot) > 0
    ensures Counted(x, k, pending, uses[slot := uses[slot] - 1], s)
    ensures Kept(x, env, HeldAfter(x, held, uses, slot), uses[slot := uses[slot] - 1], s)
    ensures s == slot ==> uses[slot] > 0 && slot in held
  {
    assert Counted(x, k, [input] + pending, uses, s) && Kept(x, env, held, uses, s);
    assert ([input] + pending)[1..] == pending;
    assert Uses(x.values, [input] + pending, s) == Uses(x.values, pending, s) + if slot == s then 1 else 0;
    hide UsesFrom, Uses, Borrowed;
  }

  /** One pending input is done. */
  lemma CountsCompleted(x: Invocation, k: nat, input: Slot, pending: seq<Slot>, env: Environment,
                        held: map<Slot, Buffer>, uses: seq<int>, slot: Slot)
    requires Counts(x, k, [input] + pending, env, held, uses) && StorageOf(x.values, input) == slot
    requires slot < |uses| && slot in env && UsesFrom(x.values, x.computations, 0, slot) > 0
    ensures Counts(x, k, pending, env, HeldAfter(x, held, uses, slot), uses[slot := uses[slot] - 1])
    ensures uses[slot] > 0 && slot in held
  {
    CompletedSlot(x, k, input, pending, env, held, uses, slot, slot);
    var held', uses' := HeldAfter(x, held, uses, slot), uses[slot := uses[slot] - 1];
    forall s: Slot | s < |uses'| ensures Counted(x, k, pending, uses', s) && Kept(x, env, held', uses', s) {
      CompletedSlot(x, k, input, pending, env, held, uses, slot, s);
    }
  }

  /** The inputs of the next computation become pending. */
  lemma CountsNext(x: Invocation, k: nat, next: nat, none: seq<Slot>, env: Environment, held: map<Slot, Buffer>,
                   uses: seq<int>, s: Slot, data: Bytes, b: Buffer)
    requires next == k + 1 && none == [] && Counts(x, k, none, env, held, uses)
    requires k < |x.computations| && s < |x.values| && s !in env && !Borrowed(x, s)
    requires UsesFrom(x.values, x.computations, 0, s) == UsesFrom(x.values, x.computations, k, s)
    ensures Counts(x, next, x.computations[k].inputs, env[s := data], held[s := b], uses)
  {
    var env', held' := env[s := data], held[s := b];
    var pending := x.computations[k].inputs;
    forall t: Slot | t < |uses| ensures Counted(x, next, pending, uses, t) && Kept(x, env', held', uses, t) {
      assert Counted(x, k, none, uses, t) && Kept(x, env, held, uses, t);
      assert Uses(x.values, none, t) == 0;
    }
  }

  lemma CountsBound(x: Invocation, none: seq<Slot>, env: Environment, held: map<Slot, Buffer>, uses: seq<int>,
                    s: Slot, data: Bytes, b: Buffer)
    requires none == [] && Counts(x, 0, none, env, held, uses) && s < |x.values| && s !in env
    ensures Counts(x, 0, none, env[s := data], held[s := b], uses)
  {
    var env', held' := env[s := data], held[s := b];
    forall t: Slot | t < |uses| ensures Counted(x, 0, none, uses, t) && Kept(x, env', held', uses, t) {
      assert Counted(x, 0, none, uses, t) && Kept(x, env, held, uses, t);
      assert Uses(x.values, none, t) == 0;
    }
  }

  /** The uniform packets of a dispatch, one buffer each. */
  function ScratchSizes(kind: Kind): seq<nat> {
    match kind
    case AddAlphaF32 => [16]
    case MatmulF32 => [16]
    case SumF32 => [16]
    case _ => []
  }

  function Operand(values: seq<ProgramValue>, held: map<Slot, Buffer>, contents: map<nat, Bytes>, s: Slot): Tensor {
    var storage := StorageOf(values, s);
    var data := if storage in held && held[storage].id in contents then contents[held[storage].id] else [];
    if s < |values| then Tensor(values[s].shape, data) else Tensor([], [])
  }

  function OperandsAt(values: seq<ProgramValue>, held: map<Slot, Buffer>, contents: map<nat, Bytes>, inputs: seq<Slot>):
    seq<Tensor>
  {
    seq(|inputs|, i requires 0 <= i < |inputs| => Operand(values, held, contents, inputs[i]))
  }

  /** The buffers bound to a dispatch hold what the evaluation uses, the reused output among them excluded. */
  lemma OperandsRead(x: Invocation, env: Environment, held: map<Slot, Buffer>, contents: map<nat, Bytes>,
                     place: map<nat, Place>, pool: Pool, inputs: seq<Slot>)
    requires State(x, env, held, contents, place, pool)
    requires forall i :: 0 <= i < |inputs| ==> inputs[i] < |x.values| && StorageOf(x.values, inputs[i]) in held
    ensures OperandsAt(x.values, held, contents, inputs) == Operands(x.values, env, inputs)
  {
    var a, b := OperandsAt(x.values, held, contents, inputs), Operands(x.values, env, inputs);
    forall i | 0 <= i < |inputs| ensures a[i] == b[i] {
      HeldIs(x, env, held, contents, place, pool, StorageOf(x.values, inputs[i]));
    }
    hide ByteLength;
  }

  datatype Result = Executed(allocations: map<Slot, Buffer>) | Failed

  /** Ownership of one invocation. */
  class GpuInvocationStorage {
    var allocations: map<Slot, Buffer>
    var created: set<nat>
    var spare: Pool
    var uses: seq<int>
    ghost var place: map<nat, Place>

    constructor (storageUseCounts: seq<nat>, ghost x: Invocation)
      requires |storageUseCounts| == |x.values|
      requires forall s :: 0 <= s < |x.values| ==> storageUseCounts[s] == UsesFrom(x.values, x.computations, 0, s)
      ensures allocations == map[] && created == {} && spare == map[] && place == map[]
      ensures Counts(x, 0, [], map[], map[], uses)
    {
      allocations := map[];
      created := {};
      spare := map[];
      uses := storageUseCounts;
      place := map[];
      forall s: Slot | s < |x.values| ensures Counted(x, 0, [], storageUseCounts, s) {
        assert Uses(x.values, [], s) == 0;
      }
    }
  }

  class WebGpuBackend {
    var contents: map<nat, Bytes>
    var next: nat
    var failures: seq<bool>

    constructor (failures: seq<bool>)
      ensures contents == map[] && Fresh()
    {
      contents := map[];
      next := 0;
      this.failures := failures;
    }

    /** Identities of buffers are never used again. */
    ghost predicate Fresh()
      reads this
    {
      forall id :: id in contents ==> id < next
    }

    ghost predicate Inv(st: GpuInvocationStorage, x: Invocation, env: Environment)
      reads this, st
    {
      Fresh() && x.next <= next && st.created == st.place.Keys
      && State(x, env, st.allocations, contents, st.place, st.spare)
    }

    method NextFails() returns (fails: bool)
      modifies this`failures
    {
      fails := failures != [] && failures[0];
      failures := if failures == [] then [] else failures[1..];
    }

    /** A buffer of a new identity, belonging to the invocation. */
    method CreateBuffer(st: GpuInvocationStorage, byteLength: nat, ghost x: Invocation, ghost env: Environment)
      returns (b: Option<Buffer>)
      requires Inv(st, x, env)
      modifies this, st`created, st`place
      ensures Inv(st, x, env)
      ensures b.Some? ==>
                && b.value.byteLength == byteLength && b.value.id !in x.before
                && (forall t :: t in st.allocations && !Borrowed(x, t) ==> st.allocations[t].id != b.value.id)
                && (forall n, i :: n in st.spare && 0 <= i < |st.spare[n]| ==> st.spare[n][i].id != b.value.id)
                && b.value.id in st.place
      ensures old(st.place).Keys <= st.place.Keys
    {
      hide State;
      var fails := NextFails();
      if fails {
        return None;
      }
      StateCreated(x, env, st.allocations, contents, st.place, st.spare, next, []);
      b := Some(Buffer(next, byteLength));
      contents := contents[next := []];
      st.created := st.created + {next};
      st.place := st.place[next := Elsewhere];
      next := next + 1;
    }

    /** The queue writes a slot's own buffer, which no other slot holds. */
    method WriteSlot(st: GpuInvocationStorage, s: Slot, b: Buffer, data: Bytes, ghost x: Invocation,
                     ghost env: Environment)
      requires Inv(st, x, env) && s !in st.allocations && !Borrowed(x, s) && s < |x.values|
      requires b.byteLength == ByteLength(x.values[s].shape) && b.id !in x.before && b.id in st.place
      requires forall t :: t in st.allocations && !Borrowed(x, t) ==> st.allocations[t].id != b.id
      requires forall n, i :: n in st.spare && 0 <= i < |st.spare[n]| ==> st.spare[n][i].id != b.id
      modifies this`contents, st`allocations, st`place
      ensures Inv(st, x, env[s := data]) && st.allocations == old(st.allocations)[s := b]
    {
      StateWritten(x, env, st.allocations, contents, st.place, st.spare, s, b, data);
      KnownId(x, env, st.allocations, contents, st.place, st.spare, b.id);
      hide State;
      st.allocations := st.allocations[s := b];
      st.place := st.place[b.id := InSlot(s)];
      contents := contents[b.id := data];
    }

    /** A pooled buffer of exactly the size, or else a new one. */
    method TakeOutput(st: GpuInvocationStorage, byteLength: nat, ghost x: Invocation, ghost env: Environment)
      returns (b: Option<Buffer>)
      requires Inv(st, x, env)
      modifies this, st`created, st`place, st`spare
      ensures Inv(st, x, env)
      ensures b.Some? ==>
                && b.value.byteLength == byteLength && b.value.id !in x.before
                && (forall t :: t in st.allocations && !Borrowed(x, t) ==> st.allocations[t].id != b.value.id)
                && (forall n, i :: n in st.spare && 0 <= i < |st.spare[n]| ==> st.spare[n][i].id != b.value.id)
                && b.value.id in st.place
    {
      if byteLength in st.spare && st.spare[byteLength] != [] {
        StatePopped(x, env, st.allocations, contents, st.place, st.spare, byteLength);
        hide State;
        var list := st.spare[byteLength];
        b := Some(list[|list| - 1]);
        st.spare := st.spare[byteLength := list[..|list| - 1]];
        st.created := st.created + {b.value.id};
        assert st.created == st.place.Keys;
      } else {
        b := CreateBuffer(st, byteLength, x, env);
      }
    }

    /** A binding slot: the resident buffer itself, or a new one with the host's payload. */
    method Bind(st: GpuInvocationStorage, values: seq<ProgramValue>, bindings: map<Slot, Materialization<Buffer>>,
                s: Slot, ghost x: Invocation, ghost env: Environment)
      returns (ok: bool, ghost env': Environment)
      requires values == x.values && bindings == x.bindings && Inv(st, x, env) && ProperBindings(x)
      requires s < |values| && values[s].source.Binding? && s !in st.allocations && s !in env
      requires Counts(x, 0, [], env, st.allocations, st.uses)
      modifies this, st
      ensures Inv(st, x, env')
      ensures ok ==>
                && s in x.bindings && env' == env[s := Content(x, x.bindings[s])]
                && st.allocations.Keys == old(st.allocations).Keys + {s}
                && Counts(x, 0, [], env', st.allocations, st.uses)
    {
      hide State, Counts, ByteLength;
      if s in bindings && bindings[s].Resident? {
        var buffer := bindings[s].allocation;
        if buffer.id !in contents {
          return false, env;
        }
        BorrowedBefore(x, env, st.allocations, contents, st.place, st.spare, buffer.id);
        StateBorrowed(x, env, st.allocations, contents, st.place, st.spare, s);
        CountsBound(x, [], env, st.allocations, st.uses, s, x.before[buffer.id], buffer);
        st.allocations := st.allocations[s := buffer];
        return true, env[s := x.before[buffer.id]];
      }
      var b := CreateBuffer(st, ByteLength(values[s].shape), x, env);
      if b.None? || s !in bindings {
        return false, env;
      }
      CountsBound(x, [], env, st.allocations, st.uses, s, bindings[s].data, b.value);
      WriteSlot(st, s, b.value, bindings[s].data, x, env);
      return true, env[s := bindings[s].data];
    }

    /** The last reader of a buffer of our own has been encoded: it may be reused. */
    method CompleteInput(st: GpuInvocationStorage, values: seq<ProgramValue>,
                         bindings: map<Slot, Materialization<Buffer>>,
                         retained: seq<bool>, input: Slot, ghost x: Invocation, ghost k: nat, ghost pending: seq<Slot>,
                         ghost env: Environment)
      requires values == x.values && bindings == x.bindings && retained == x.retained && Inv(st, x, env)
      requires Counts(x, k, [input] + pending, env, st.allocations, st.uses) && |st.uses| == |values|
      requires input < |values| && values[input].storageSlot < |values| && values[input].storageSlot in env
      requires UsesFrom(x.values, x.computations, 0, values[input].storageSlot) > 0
      modifies st
      ensures Inv(st, x, env) && Counts(x, k, pending, env, st.allocations, st.uses) && |st.uses| == |values|
    {
      hide State, Counts, ByteLength, UsesFrom, Uses;
      var slot := values[input].storageSlot;
      CountsCompleted(x, k, input, pending, env, st.allocations, st.uses, slot);
      var remaining := st.uses[slot] - 1;
      st.uses := st.uses[slot := remaining];
      if remaining != 0 || (slot < |retained| && retained[slot]) || (slot in bindings && bindings[slot].Resident?) {
        return;
      }
      var retired := st.allocations[slot];
      StateRetired(x, env, st.allocations, contents, st.place, st.spare, slot);
      HeldIs(x, env, st.allocations, contents, st.place, st.spare, slot);
      var list := PoolOf(st.spare, retired.byteLength);
      st.allocations := st.allocations - {slot};
      st.spare := st.spare[retired.byteLength := list + [retired]];
      st.place := st.place[retired.id := InPool(retired.byteLength, |list|)];
      assert st.place.Keys == old(st.place).Keys;
    }

    /** Chooses the output buffer of a computation and what will be written to it. */
    method Encode(st: GpuInvocationStorage, values: seq<ProgramValue>, c: Computation, apply: Semantics,
                  ghost x: Invocation, ghost k: nat, ghost env: Environment) returns (ok: bool, b: Buffer, data: Bytes)
      requires values == x.values && Inv(st, x, env) && Sized(apply)
      requires k < |x.computations| && c == x.computations[k] && c.output < |values| && c.output !in env
      requires Counts(x, k, [], env, st.allocations, st.uses) && OperandsReady(x, k, env)
      modifies this, st`created, st`place, st`spare
      ensures Inv(st, x, env)
      ensures ok ==>
                && data == apply(c.operation, Operands(values, env, c.inputs), values[c.output].shape)
                && b.byteLength == ByteLength(values[c.output].shape) && b.id !in x.before && b.id in st.place
                && c.output !in st.allocations
                && (forall t :: t in st.allocations && !Borrowed(x, t) ==> st.allocations[t].id != b.id)
                && (forall n, i :: n in st.spare && 0 <= i < |st.spare[n]| ==> st.spare[n][i].id != b.id)
    {
      HeldKnown(x, env, st.allocations, contents, st.place, st.spare);
      InputsHeld(x, k, env, st.allocations, st.uses);
      hide State, Counts, ByteLength, UsesFrom, Uses, OperandsAt, Operands, OperandsReady;
      b, data := Buffer(0, 0), [];
      var byteLength := ByteLength(values[c.output].shape);
      var output := TakeOutput(st, byteLength, x, env);
      if output.None? {
        return false, b, data;
      }
      b := output.value;
      if byteLength != 0 {
        ok := CreateScratch(st, ScratchSizes(c.operation.kind), b, x, env);
        if !ok {
          return;
        }
        OperandsRead(x, env, st.allocations, contents, st.place, st.spare, c.inputs);
        data := apply(c.operation, OperandsAt(values, st.allocations, contents, c.inputs), values[c.output].shape);
      }
      EmptyData(apply, c.operation, Operands(values, env, c.inputs), values[c.output].shape);
      ok := true;
    }

    /** Encodes one computation into a buffer that no pending reader needs. */
    method Compute(st: GpuInvocationStorage, values: seq<ProgramValue>, bindings: map<Slot, Materialization<Buffer>>,
                   retained: seq<bool>, c: Computation, apply: Semantics, ghost x: Invocation, ghost k: nat,
                   ghost env: Environment)
      returns (ok: bool, ghost env': Environment)
      requires values == x.values && bindings == x.bindings && retained == x.retained && Inv(st, x, env) && Sized(apply)
      requires k < |x.computations| && c == x.computations[k] && c.output < |values| && c.output !in env
      requires !Borrowed(x, c.output)
      requires UsesFrom(x.values, x.computations, 0, c.output) == UsesFrom(x.values, x.computations, k, c.output)
      requires Counts(x, k, [], env, st.allocations, st.uses)
      requires OperandsReady(x, k, env)
      modifies this, st
      ensures Inv(st, x, env')
      ensures ok ==>
                && env' == env[c.output := apply(c.operation, Operands(values, env, c.inputs), values[c.output].shape)]
                && Counts(x, k + 1, [], env', st.allocations, st.uses)
    {
      hide State, Counts, ByteLength, UsesFrom, Uses, Operands;
      var b, data;
      ok, b, data := Encode(st, values, c, apply, x, k, env);
      if !ok {
        return false, env;
      }
      CountsNext(x, k, k + 1, [], env, st.allocations, st.uses, c.output, data, b);
      WriteSlot(st, c.output, b, data, x, env);
      env' := env[c.output := data];
      UsedInputs(x, k);
      CompleteInputs(st, values, bindings, retained, c.inputs, x, k, env');
      ok := true;
    }

    /** The uniform packets of a dispatch, its output already chosen. */
    method CreateScratch(st: GpuInvocationStorage, sizes: seq<nat>, output: Buffer, ghost x: Invocation,
                               ghost env: Environment) returns (ok: bool)
      requires Inv(st, x, env) && output.id in st.place && output.id !in x.before
      requires forall t :: t in st.allocations && !Borrowed(x, t) ==> st.allocations[t].id != output.id
      requires forall n, i :: n in st.spare && 0 <= i < |st.spare[n]| ==> st.spare[n][i].id != output.id
      modifies this, st`created, st`place
      ensures Inv(st, x, env) && output.id in st.place
    {
      hide State;
      ok := true;
      for i := 0 to |sizes|
        invariant Inv(st, x, env) && output.id in st.place
      {
        var b := CreateBuffer(st, sizes[i], x, env);
        ok := ok && b.Some?;
      }
    }

    /** The uses of an encoded computation. */
    method CompleteInputs(st: GpuInvocationStorage, values: seq<ProgramValue>,
                          bindings: map<Slot, Materialization<Buffer>>,
                          retained: seq<bool>, inputs: seq<Slot>, ghost x: Invocation, ghost k: nat,
                          ghost env: Environment)
      requires values == x.values && bindings == x.bindings && retained == x.retained && Inv(st, x, env)
      requires k < |x.computations| && inputs == x.computations[k].inputs
      requires Counts(x, k + 1, inputs, env, st.allocations, st.uses)
      requires OperandsReady(x, k, env) && InputsUsed(x, inputs)
      modifies st
      ensures Inv(st, x, env) && Counts(x, k + 1, [], env, st.allocations, st.uses)
    {
      CountsLength(x, k + 1, inputs, env, st.allocations, st.uses);
      hide State, Counts, ByteLength, UsesFrom, Uses;
      var i := 0;
      assert inputs[0..] == inputs;
      while i < |inputs|
        invariant 0 <= i <= |inputs| && Inv(st, x, env) && |st.uses| == |values|
        invariant Counts(x, k + 1, inputs[i..], env, st.allocations, st.uses)
      {
        assert inputs[i..] == [inputs[i]] + inputs[i + 1..];
        CompleteInput(st, values, bindings, retained, inputs[i], x, k + 1, inputs[i + 1..], env);
        i := i + 1;
      }
      assert inputs[|inputs|..] == [];
    }

    /** Encodes the bindings and then the computations, each into its own buffer. */
    method EncodeExecution(st: GpuInvocationStorage, values: seq<ProgramValue>, computations: seq<Computation>,
                           bindings: map<Slot, Materialization<Buffer>>, retained: seq<bool>, apply: Semantics,
                           ghost x: Invocation)
      returns (ok: bool, ghost env: Environment)
      requires values == x.values && computations == x.computations && bindings == x.bindings && retained == x.retained
      requires WellFormed(values, computations) && ProperBindings(x) && Sized(apply) && Inv(st, x, map[])
      requires st.allocations == map[] && Counts(x, 0, [], map[], map[], st.uses)
      modifies this, st
      ensures Inv(st, x, env)
      ensures ok ==> Final(x, apply, env) && Counts(x, |computations|, [], env, st.allocations, st.uses)
      ensures ok ==> Bound(values, BoundBelow(x, |values|))
    {
      hide State, Counts, ByteLength, UsesFrom, Uses, Operands, WellFormed, ProperBindings, BoundBelow, Final, Sized;
      env := map[];
      BoundBelowNone(x);
      var s := 0;
      while s < |values|
        invariant s <= |values| && Inv(st, x, env) && env == BoundBelow(x, s) && st.allocations.Keys == env.Keys
        invariant Counts(x, 0, [], env, st.allocations, st.uses)
        invariant forall t :: 0 <= t < s && values[t].source.Binding? ==> t in x.bindings
      {
        BoundBelowNext(x, s);
        if values[s].source.Binding? {
          assert s !in st.allocations.Keys;
          ok, env := Bind(st, values, bindings, s, x, env);
          if !ok {
            return;
          }
        }
        s := s + 1;
      }
      AllBound(x, env, st.allocations, contents, st.place, st.spare);
      OutputsKnown(values, computations);
      ghost var env0 := env;
      var k := 0;
      while k < |computations|
        invariant k <= |computations| && Inv(st, x, env) && env == Evaluate(apply, values, computations, env0, k)
        invariant Counts(x, k, [], env, st.allocations, st.uses)
      {
        ReadyToCompute(x, apply, k);
        ok, env := Compute(st, values, bindings, retained, computations[k], apply, x, k, env);
        if !ok {
          return;
        }
        k := k + 1;
      }
      FinalIs(x, apply, env);
      ok := true;
    }

    /** After the queue has drained, everything created is destroyed but what a success returns. */
    method ReleaseInvocation(st: GpuInvocationStorage, success: bool, ghost x: Invocation, ghost env: Environment)
      requires Inv(st, x, env)
      modifies this`contents
      ensures Undisturbed(x, contents)
      ensures !success ==> contents == x.before
      ensures success && (forall s: Slot :: s in st.allocations <==> IsReturned(x, s)) ==>
                Returned(x, env, st.allocations, contents)
    {
      var retained := if success then set s | s in st.allocations :: st.allocations[s].id else {};
      ghost var before := contents;
      contents := contents - (st.created - retained);
      forall s | success && s in st.allocations
        ensures s in env && st.allocations[s].id in contents && contents[st.allocations[s].id] == env[s]
      {
        HeldIs(x, env, st.allocations, before, st.place, st.spare, s);
      }
      hide Holding, Pooled;
    }

    /**
     * The whole invocation, up to the release that follows its drain. A success
     * leaves the buffers of the slots that were borrowed, retained or never read,
     * each with its evaluation; a failure leaves the buffers from before.
     */
    method Execute(values: seq<ProgramValue>, computations: seq<Computation>, storageUseCounts: seq<nat>,
                   bindings: map<Slot, Materialization<Buffer>>, retained: seq<bool>, apply: Semantics)
      returns (result: Result, ghost x: Invocation, ghost env: Environment)
      requires WellFormed(values, computations) && |storageUseCounts| == |values| && Fresh() && Sized(apply)
      requires forall s :: 0 <= s < |values| ==> storageUseCounts[s] == UsesFrom(values, computations, 0, s)
      requires ProperBindings(Invocation(values, computations, bindings, retained, contents, next))
      modifies this
      ensures x == Invocation(values, computations, bindings, retained, old(contents), old(next))
      ensures Undisturbed(x, contents)
      ensures result.Failed? ==> contents == old(contents)
      ensures result.Executed? ==> Final(x, apply, env) && Returned(x, env, result.allocations, contents)
    {
      x := Invocation(values, computations, bindings, retained, contents, next);
      StateEmpty(x);
      hide State, Counts, Final, WellFormed, UsesFrom, ProperBindings, Sized, Undisturbed;
      var st := new GpuInvocationStorage(storageUseCounts, x);
      var ok;
      ok, env := EncodeExecution(st, values, computations, bindings, retained, apply, x);
      if ok {
        ReturnedKeys(x, apply, env, st.allocations, contents, st.place, st.spare, st.uses);
      }
      ReleaseInvocation(st, ok, x, env);
      result := if ok then Executed(st.allocations) else Failed;
    }
  }

  /** What a success returns and leaves behind. */
  ghost predicate Returned(x: Invocation, env: Environment, held: map<Slot, Buffer>, contents: map<nat, Bytes>) {
    && (forall s: Slot :: s in held <==> IsReturned(x, s))
    && (forall s :: s in held ==> s in env && held[s].id in contents && contents[held[s].id] == env[s])
    && (forall id :: id in contents ==> id in x.before || exists s :: s in held && held[s].id == id)
  }

  /** Borrowed, retained, or never read. */
  predicate IsReturned(x: Invocation, s: Slot) {
    && s < |x.values| && !x.values[s].source.Alias?
    && (Protected(x, s) || UsesFrom(x.values, x.computations, 0, s) == 0)
  }

  lemma StateEmpty(x: Invocation)
    ensures State(x, map[], map[], x.before, map[], map[])
  {
  }

  lemma ReturnedKeys(x: Invocation, apply: Semantics, env: Environment, held: map<Slot, Buffer>,
                     contents: map<nat, Bytes>, place: map<nat, Place>, pool: Pool, uses: seq<int>)
    requires State(x, env, held, contents, place, pool) && Final(x, apply, env) && Sized(apply)
    requires WellFormed(x.values, x.computations) && Bound(x.values, BoundBelow(x, |x.values|))
    requires Counts(x, |x.computations|, [], env, held, uses)
    ensures forall s: Slot :: s in held <==> IsReturned(x, s)
  {
    HeldKnown(x, env, held, contents, place, pool);
    forall s: Slot ensures s in held <==> IsReturned(x, s) {
      EvaluateKnown(apply, x.values, x.computations, BoundBelow(x, |x.values|), |x.computations|, s);
      ReturnedSlot(x, env, held, uses, s);
    }
    hide State, Counts, WellFormed, BoundBelow, Evaluate;
  }

  lemma ReturnedSlot(x: Invocation, env: Environment, held: map<Slot, Buffer>, uses: seq<int>, s: Slot)
    requires WellFormed(x.values, x.computations) && Counts(x, |x.computations|, [], env, held, uses)
    requires s in env <==>
             (&& s < |x.values|
              && (x.values[s].source.Binding? || ComputedBefore(x.computations, |x.computations|, s)))
    requires s in held ==> s in env
    ensures s in held <==> IsReturned(x, s)
  {
    if s < |x.values| {
      assert Counted(x, |x.computations|, [], uses, s) && Kept(x, env, held, uses, s);
      assert Uses(x.values, [], s) == 0;
      if ComputedBefore(x.computations, |x.computations|, s) {
        var j :| 0 <= j < |x.computations| && x.computations[j].output == s;
        assert ProperComputation(x.values, x.computations[j]);
      }
    }
    hide Protected;
  }

  /** What a binding provides. */
  function Content(x: Invocation, binding: Materialization<Buffer>): Bytes {
    match binding
    case Host(data) => data
    case Resident(buffer) => if buffer.id in x.before then x.before[buffer.id] else []
  }

  /** Bindings that a caller may pass: for binding slots only, of their size, residents existing before. */
  predicate ProperBindings(x: Invocation) {
    forall s :: s in x.bindings ==>
      && s < |x.values| && x.values[s].source.Binding?
      && match x.bindings[s]
         case Host(data) => |data| == ByteLength(x.values[s].shape)
         case Resident(b) =>
           && b.byteLength == ByteLength(x.values[s].shape) && b.id < x.next
           && (b.id in x.before ==> |x.before[b.id]| == b.byteLength)
  }

  lemma BorrowedBefore(x: Invocation, env: Environment, held: map<Slot, Buffer>, contents: map<nat, Bytes>,
                       place: map<nat, Place>, pool: Pool, id: nat)
    requires State(x, env, held, contents, place, pool) && id in contents && id < x.next
    ensures id in x.before
  {
    hide ByteLength, Holding, Pooled;
  }

  lemma KnownId(x: Invocation, env: Environment, held: map<Slot, Buffer>, contents: map<nat, Bytes>,
                place: map<nat, Place>, pool: Pool, id: nat)
    requires State(x, env, held, contents, place, pool) && id in place
    ensures id in contents && forall s :: place[id := InSlot(s)].Keys == place.Keys
  {
    hide ByteLength, Holding, Pooled;
  }

  function BoundBelow(x: Invocation, i: nat): Environment {
    map s | s in x.bindings && s < i && s < |x.values| && x.values[s].source.Binding? :: Content(x, x.bindings[s])
  }

  lemma BoundBelowNone(x: Invocation)
    ensures BoundBelow(x, 0) == map[]
  {
  }

  lemma BoundBelowNext(x: Invocation, i: nat)
    requires i < |x.values|
    ensures x.values[i].source.Binding? && i in x.bindings ==>
              BoundBelow(x, i + 1) == BoundBelow(x, i)[i := Content(x, x.bindings[i])]
    ensures !x.values[i].source.Binding? ==> BoundBelow(x, i + 1) == BoundBelow(x, i)
    ensures i !in BoundBelow(x, i)
  {
  }

  /** The contents of all slots after the whole program. */
  ghost predicate Final(x: Invocation, apply: Semantics, env: Environment) {
    && (forall k :: 0 <= k < |x.computations| ==> x.computations[k].output < |x.values|)
    && env == Evaluate(apply, x.values, x.computations, BoundBelow(x, |x.values|), |x.computations|)
  }

  lemma FinalIs(x: Invocation, apply: Semantics, env: Environment)
    requires forall k :: 0 <= k < |x.computations| ==> x.computations[k].output < |x.values|
    requires env == Evaluate(apply, x.values, x.computations, BoundBelow(x, |x.values|), |x.computations|)
    ensures Final(x, apply, env)
  {
  }

  ghost predicate Undisturbed(x: Invocation, contents: map<nat, Bytes>) {
    forall id :: id in x.before ==> id in contents && contents[id] == x.before[id]
  }

  lemma AllBound(x: Invocation, env: Environment, held: map<Slot, Buffer>, contents: map<nat, Bytes>,
                 place: map<nat, Place>, pool: Pool)
    requires State(x, env, held, contents, place, pool) && held.Keys == env.Keys && ProperBindings(x)
    requires env == BoundBelow(x, |x.values|)
    requires forall s :: 0 <= s < |x.values| && x.values[s].source.Binding? ==> s in x.bindings
    ensures Bound(x.values, env)
  {
    forall s: Slot | s in env && s < |x.values| ensures |env[s]| == ByteLength(x.values[s].shape) {
      assert s in held.Keys;
      BoundSize(x, env, held, contents, place, pool, s);
    }
    hide State, Content, ByteLength, ProperBindings;
  }

  lemma BoundSize(x: Invocation, env: Environment, held: map<Slot, Buffer>, contents: map<nat, Bytes>,
                  place: map<nat, Place>, pool: Pool, s: Slot)
    requires State(x, env, held, contents, place, pool) && s in held && ProperBindings(x) && s < |x.values|
    requires s in env && s in x.bindings && env[s] == Content(x, x.bindings[s])
    ensures |env[s]| == ByteLength(x.values[s].shape)
  {
    assert Holding(x, env, held, contents, place, s);
    hide ByteLength;
  }

  lemma OutputsKnown(values: seq<ProgramValue>, computations: seq<Computation>)
    requires WellFormed(values, computations)
    ensures forall j :: 0 <= j < |computations| ==> computations[j].output < |values|
  {
    forall j | 0 <= j < |computations| ensures computations[j].output < |values| {
      assert ProperComputation(values, computations[j]);
    }
  }

  /** The storage of every input of computation k is known. */
  predicate OperandsReady(x: Invocation, k: nat, env: Environment)
    requires k < |x.computations|
  {
    forall i :: 0 <= i < |x.computations[k].inputs| ==>
      var input := x.computations[k].inputs[i];
      input < |x.values| && x.values[input].storageSlot < |x.values| && x.values[input].storageSlot in env
  }

  predicate InputsUsed(x: Invocation, inputs: seq<Slot>) {
    forall i :: 0 <= i < |inputs| ==>
      inputs[i] < |x.values| && UsesFrom(x.values, x.computations, 0, x.values[inputs[i]].storageSlot) > 0
  }

  lemma UsedInputs(x: Invocation, k: nat)
    requires k < |x.computations|
    requires forall i :: 0 <= i < |x.computations[k].inputs| ==> x.computations[k].inputs[i] < |x.values|
    ensures InputsUsed(x, x.computations[k].inputs)
  {
    var inputs := x.computations[k].inputs;
    forall i | 0 <= i < |inputs|
      ensures UsesFrom(x.values, x.computations, 0, x.values[inputs[i]].storageSlot) > 0
    {
      UsedInput(x, k, i);
    }
  }

  lemma UsedInput(x: Invocation, k: nat, i: nat)
    requires k < |x.computations| && i < |x.computations[k].inputs|
    ensures UsesFrom(x.values, x.computations, 0, StorageOf(x.values, x.computations[k].inputs[i])) > 0
    ensures UsesFrom(x.values, x.computations, k, StorageOf(x.values, x.computations[k].inputs[i])) > 0
  {
    var s := StorageOf(x.values, x.computations[k].inputs[i]);
    UsesOfInput(x.values, x.computations[k].inputs, i);
    UsesSplit(x.values, x.computations, k, s);
  }

  lemma CountsLength(x: Invocation, k: nat, pending: seq<Slot>, env: Environment, held: map<Slot, Buffer>,
                     uses: seq<int>)
    requires Counts(x, k, pending, env, held, uses)
    ensures |uses| == |x.values|
  {
  }

  lemma HeldKnown(x: Invocation, env: Environment, held: map<Slot, Buffer>, contents: map<nat, Bytes>,
                  place: map<nat, Place>, pool: Pool)
    requires State(x, env, held, contents, place, pool)
    ensures forall s :: s in held ==> s in env
  {
    forall s | s in held ensures s in env {
      assert Holding(x, env, held, contents, place, s);
    }
    hide ByteLength;
  }

  /** A pending operand is never retired early. */
  lemma InputsHeld(x: Invocation, k: nat, env: Environment, held: map<Slot, Buffer>, uses: seq<int>)
    requires k < |x.computations| && Counts(x, k, [], env, held, uses) && OperandsReady(x, k, env)
    ensures forall i :: 0 <= i < |x.computations[k].inputs| ==>
              x.computations[k].inputs[i] < |x.values| && StorageOf(x.values, x.computations[k].inputs[i]) in held
  {
    var inputs := x.computations[k].inputs;
    forall i | 0 <= i < |inputs| ensures StorageOf(x.values, inputs[i]) in held {
      var s := StorageOf(x.values, inputs[i]);
      UsedInput(x, k, i);
      assert Counted(x, k, [], uses, s) && Kept(x, env, held, uses, s);
    }
    hide UsesFrom, Protected;
  }

  lemma EmptyData(apply: Semantics, op: Operation, operands: seq<Tensor>, shape: seq<nat>)
    requires Sized(apply)
    ensures |apply(op, operands, shape)| == ByteLength(shape)
    ensures ByteLength(shape) == 0 ==> apply(op, operands, shape) == []
  {
  }

  /** What computation k reads is known, and what it writes is not. */
  lemma ReadyToCompute(x: Invocation, apply: Semantics, k: nat)
    requires WellFormed(x.values, x.computations) && Sized(apply) && k < |x.computations|
    requires ProperBindings(x) && Bound(x.values, BoundBelow(x, |x.values|))
    ensures var env, c := Evaluate(apply, x.values, x.computations, BoundBelow(x, |x.values|), k), x.computations[k];
            && c.output < |x.values| && c.output !in env && !Borrowed(x, c.output) && OperandsReady(x, k, env)
            && UsesFrom(x.values, x.computations, 0, c.output) == UsesFrom(x.values, x.computations, k, c.output)
  {
    var env0 := BoundBelow(x, |x.values|);
    var c := x.computations[k];
    assert ProperComputation(x.values, c);
    EvaluateKnown(apply, x.values, x.computations, env0, k, c.output);
    NotReadBefore(x.values, x.computations, k, k, c.output);
    hide BoundBelow, Evaluate, Sized, Bound, UsesFrom;
    forall i | 0 <= i < |c.inputs|
      ensures c.inputs[i] < |x.values| && x.values[c.inputs[i]].storageSlot < |x.values|
      ensures x.values[c.inputs[i]].storageSlot in Evaluate(apply, x.values, x.computations, env0, k)
    {
      OperandKnown(x.values, x.computations, k, i);
      EvaluateKnown(apply, x.values, x.computations, env0, k, x.values[c.inputs[i]].storageSlot);
    }
  }

  /** Resident buffers of admitted values are there, and of their values' sizes. */
  ghost predicate BuffersReside(g: Graph, m: Materials<Buffer>, before: map<nat, Bytes>, next: nat) {
    forall v :: v in g && v in m && m[v].Resident? ==>
      var b := m[v].allocation;
      b.byteLength == ByteLength(g[v].shape) && b.id < next && b.id in before && |before[b.id]| == b.byteLength
  }

  function Reading(before: map<nat, Bytes>): Buffer -> Bytes {
    (b: Buffer) => if b.id in before then before[b.id] else []
  }

  /** What formation binds may be passed to an invocation. */
  lemma FormedBindings(g: Graph, m: Materials<Buffer>, rank: Value -> nat, f: Formed<Buffer>, x: Invocation)
    requires Admitted(g, m, rank) && Lowered(g, m, f) && BuffersReside(g, m, x.before, x.next)
    requires x.values == f.values && x.bindings == f.bindings
    ensures ProperBindings(x)
  {
    forall s | s in x.bindings
      ensures s < |x.values| && x.values[s].source.Binding?
              && match x.bindings[s]
                 case Host(data) => |data| == ByteLength(x.values[s].shape)
                 case Resident(b) => b.byteLength == ByteLength(x.values[s].shape) && b.id < x.next
                                     && (b.id in x.before ==> |x.before[b.id]| == b.byteLength)
    {
      assert Describes(g, m, f, s);
      assert AdmittedValue(g, m, rank, f.valuesBySlot[s]);
    }
    hide ByteLength;
  }

  /**
   * Running a formed program in reused buffers: a returned buffer holds the recursive meaning
   * of every value stored in it.
   */
  lemma FormedExecution(g: Graph, m: Materials<Buffer>, rank: Value -> nat, f: Formed<Buffer>, x: Invocation,
                        apply: Semantics, env: Environment, held: map<Slot, Buffer>, contents: map<nat, Bytes>,
                        v: Value)
    requires Admitted(g, m, rank) && Lowered(g, m, f) && v in f.slots && v in g && f.slots[v] < |f.values|
    requires x.values == f.values && x.computations == f.computations && x.bindings == f.bindings
    requires Final(x, apply, env) && Returned(x, env, held, contents) && f.values[f.slots[v]].storageSlot in held
    ensures held[f.values[f.slots[v]].storageSlot].id in contents
    ensures contents[held[f.values[f.slots[v]].storageSlot].id] == Meaning(g, m, rank, apply, Reading(x.before), v)
  {
    FormedMeaning(g, m, rank, apply, Reading(x.before), f, v);
    FormedContents(g, m, f, x);
    hide Lowered, Admitted, Evaluate, BoundBelow, InitialContents, Reading, IsReturned;
  }

  lemma FormedContents(g: Graph, m: Materials<Buffer>, f: Formed<Buffer>, x: Invocation)
    requires Lowered(g, m, f) && x.values == f.values && x.bindings == f.bindings
    ensures InitialContents(f, Reading(x.before)) == BoundBelow(x, |x.values|)
  {
    forall s | s in f.bindings ensures s < |x.values| && x.values[s].source.Binding? {
      assert Describes(g, m, f, s);
    }
    hide Lowered, Describes;
  }
}
