/**
 * Running a program on the CPU: bindings first, then each computation into a
 * newly reserved output, giving up every scratch allocation after its last use
 * and everything of its own when a step fails.
 */
module CpuBackend {
  import opened Options
  import opened Programs
  import opened LinearMemory
  import opened InvocationUses
  import opened InvocationState
  import opened ProgramFormation

  /** Ownership and remaining uses of one invocation. */
  class InvocationStorage {
    const allocator: LinearMemoryAllocator
    const bindings: map<Slot, Materialization<Allocation>>
    var allocations: map<Slot, Allocation>
    var remainingUses: seq<int>

    /** A negative count protects retained or borrowed slots. */
    constructor (allocator: LinearMemoryAllocator, bindings: map<Slot, Materialization<Allocation>>,
                 retained: seq<bool>, storageUseCounts: seq<nat>, ghost x: Invocation)
      requires |storageUseCounts| == |x.values| && bindings == x.bindings && retained == x.retained
      requires forall s :: 0 <= s < |x.values| ==> storageUseCounts[s] == UsesFrom(x.values, x.computations, 0, s)
      ensures this.allocator == allocator && this.bindings == bindings && allocations == map[]
      ensures Counts(x, 0, [], map[], map[], remainingUses)
    {
      this.allocator := allocator;
      this.bindings := bindings;
      allocations := map[];
      var remaining: seq<int> := [];
      for slot := 0 to |storageUseCounts|
        invariant |remaining| == slot
        invariant forall s :: 0 <= s < slot ==> Counted(x, 0, [], remaining, s)
      {
        var before := remaining;
        var protected := (slot < |retained| && retained[slot]) || (slot in bindings && bindings[slot].Resident?);
        remaining := remaining + [if protected then -1 else storageUseCounts[slot]];
        assert Uses(x.values, [], slot) == 0;
        forall s | 0 <= s < slot ensures Counted(x, 0, [], remaining, s) {
          assert Counted(x, 0, [], before, s);
        }
      }
      remainingUses := remaining;
    }

    ghost predicate Inv(x: Invocation, env: Environment)
      reads this, allocator, allocator.memory
    {
      && allocator.Valid() && |allocator.memory.bytes| % PAGE_BYTES == 0 && bindings == x.bindings
      && x.next <= allocator.next
      && State(x, env, allocations, allocator.outstanding, allocator.memory.bytes)
    }

    /** One input of a storage slot has been used; the last use releases its allocation. */
    method CompleteInputUse(slot: Slot, ghost x: Invocation, ghost k: nat, ghost input: Slot, ghost pending: seq<Slot>,
                            ghost env: Environment)
      requires Inv(x, env) && Counts(x, k, [input] + pending, env, allocations, remainingUses)
      requires StorageOf(x.values, input) == slot && slot < |remainingUses| && slot in env
      requires UsesFrom(x.values, x.computations, 0, slot) > 0
      modifies this, allocator
      ensures Inv(x, env) && Counts(x, k, pending, env, allocations, remainingUses)
    {
      hide State, Counts, LinearMemory.Consistent, UsesFrom, Uses;
      CountsCompleted(x, k, input, pending, env, allocations, remainingUses, slot);
      var remaining := remainingUses[slot];
      if remaining <= 0 {
        return;
      }
      remainingUses := remainingUses[slot := remaining - 1];
      if remaining == 1 {
        var allocation := allocations[slot];
        HeldIsLive(x, env, allocations, allocator.outstanding, allocator.memory.bytes, slot);
        StateReleased(x, env, allocations, allocator.outstanding, allocator.memory.bytes, slot);
        var ok := allocator.Release(allocation);
        allocations := allocations - {slot};
      }
    }

    /** Releases everything that is not borrowed. */
    method Rollback(ghost x: Invocation, ghost env: Environment)
      requires Inv(x, env)
      modifies this, allocator
      ensures allocator.Valid() && allocator.outstanding == x.before
    {
      hide State, Counts, LinearMemory.Consistent, UsesFrom, Uses;
      var todo := allocations;
      while todo != map[]
        invariant allocator.Valid() && bindings == x.bindings
        invariant State(x, env, todo, allocator.outstanding, allocator.memory.bytes)
        decreases |todo|
      {
        var slot :| slot in todo;
        var allocation := todo[slot];
        HeldIsLive(x, env, todo, allocator.outstanding, allocator.memory.bytes, slot);
        var resident := if slot in bindings && bindings[slot].Resident? then Some(bindings[slot].allocation) else None;
        if resident != Some(allocation) {
          StateReleased(x, env, todo, allocator.outstanding, allocator.memory.bytes, slot);
          var ok := allocator.Release(allocation);
        } else {
          StateDropped(x, env, todo, allocator.outstanding, allocator.memory.bytes, slot);
        }
        todo := todo - {slot};
      }
      NothingOwn(x, env, todo, allocator.outstanding, allocator.memory.bytes);
    }
  }

  datatype ExecutableProgram = ExecutableProgram(
    values: seq<ProgramValue>, computations: seq<Computation>, inputUseCounts: seq<nat>, storageUseCounts: seq<nat>,
    result: Slot)

  ghost predicate ProperProgram(p: ExecutableProgram) {
    && WellFormed(p.values, p.computations) && |p.storageUseCounts| == |p.values|
    && forall s :: 0 <= s < |p.values| ==> p.storageUseCounts[s] == UsesFrom(p.values, p.computations, 0, s)
  }

  /** A program with its use counts. */
  method MakeProgram(values: seq<ProgramValue>, computations: seq<Computation>, result: Slot)
    returns (p: ExecutableProgram)
    requires WellFormed(values, computations)
    ensures ProperProgram(p) && p.values == values && p.computations == computations && p.result == result
  {
    forall k, i | 0 <= k < |computations| && 0 <= i < |computations[k].inputs|
      ensures computations[k].inputs[i] < |values| && values[computations[k].inputs[i]].storageSlot < |values|
    {
      OperandKnown(values, computations, k, i);
    }
    var inputUseCounts, storageUseCounts := CountUses(values, computations);
    p := ExecutableProgram(values, computations, inputUseCounts, storageUseCounts, result);
  }

  /** A kernel that rejects its call or traps may have written some of its output. */
  datatype Outcome = Accepted | Rejected(written: Bytes) | Trapped(written: Bytes)

  function Overwritten(content: Bytes, written: Bytes): (r: Bytes)
    ensures |r| == |content|
  {
    if |written| <= |content| then written + content[|written|..] else written[..|content|]
  }

  datatype Failure =
    | Quarantined | StaleAllocation | OutOfMemory | MissingBinding | UnboundOperand | KernelRejected | KernelTrapped

  datatype ExecutionResult = Executed(allocations: map<Slot, Allocation>) | Failed(reason: Failure)

  /** One WebAssembly context; what its kernels answer is given in advance. */
  class WebAssemblyCpuBackend {
    const allocator: LinearMemoryAllocator
    var poisoned: bool
    var outcomes: seq<Outcome>

    constructor (allocator: LinearMemoryAllocator, outcomes: seq<Outcome>)
      ensures this.allocator == allocator && !poisoned
    {
      this.allocator := allocator;
      poisoned := false;
      this.outcomes := outcomes;
    }

    /** Reserves the storage of a slot. */
    method Reserve(storage: InvocationStorage, s: Slot, shape: seq<nat>, ghost x: Invocation, ghost env: Environment)
      returns (reserved: bool, ghost env': Environment)
      requires storage.allocator == allocator && storage.Inv(x, env)
      requires s !in storage.allocations && !Borrowed(x, s) && s < |x.values| && shape == x.values[s].shape
      modifies storage`allocations, allocator, allocator.memory
      ensures storage.Inv(x, env')
      ensures if reserved
              then && storage.allocations.Keys == old(storage.allocations).Keys + {s} && env'.Keys == env.Keys + {s}
                   && storage.allocations == old(storage.allocations)[s := storage.allocations[s]]
                   && env' == env[s := env'[s]]
              else storage.allocations == old(storage.allocations) && env' == env
    {
      hide State, LinearMemory.Partition, LinearMemory.Sorted, ByteLength, LinearMemory.Total, LinearMemory.FirstFit;
      env' := env;
      var r := allocator.Allocate(ByteLength(shape));
      ghost var before := old(allocator.memory.bytes);
      LiveInMemory(allocator.base, old(allocator.cursor), old(allocator.freeSegments),
                   old(allocator.freeSegmentByteBound), old(allocator.outstanding), old(allocator.next),
                   old(allocator.liveReservedBytes), old(allocator.livePayloadBytes), before);
      if !r.Allocated? {
        StateGrown(x, env, storage.allocations, allocator.outstanding, before, allocator.memory.bytes);
        return false, env;
      }
      var al := r.allocation;
      NewApart(allocator.base, allocator.cursor, allocator.freeSegments, allocator.outstanding, al.id);
      ghost var live := old(allocator.outstanding);
      forall id | id in live ensures Apart(al, live[id]) {
        assert id in allocator.outstanding && allocator.outstanding[id] == live[id];
      }
      StateReserved(x, env, storage.allocations, live, before, allocator.memory.bytes, s, al);
      storage.allocations := storage.allocations[s := al];
      env' := env[s := Read(allocator.memory.bytes, al)];
      return true, env';
    }

    /** Puts contents into a reserved slot. */
    method WriteSlot(storage: InvocationStorage, s: Slot, data: Bytes, ghost x: Invocation, ghost env: Environment)
      requires storage.allocator == allocator && storage.Inv(x, env)
      requires s in storage.allocations && !Borrowed(x, s) && |data| == storage.allocations[s].byteLength
      modifies allocator.memory
      ensures storage.Inv(x, env[s := data])
    {
      hide State, LinearMemory.Partition, LinearMemory.Sorted, ByteLength, LinearMemory.Total, InMemory, Apart, Read;
      var memory := allocator.memory;
      var al := storage.allocations[s];
      HeldIsLive(x, env, storage.allocations, allocator.outstanding, memory.bytes, s);
      LiveInMemory(allocator.base, allocator.cursor, allocator.freeSegments, allocator.freeSegmentByteBound,
                   allocator.outstanding, allocator.next, allocator.liveReservedBytes, allocator.livePayloadBytes,
                   memory.bytes);
      NewApart(allocator.base, allocator.cursor, allocator.freeSegments, allocator.outstanding, al.id);
      StateWritten(x, env, storage.allocations, allocator.outstanding, memory.bytes, s, data);
      WriteFits(memory.bytes, al, data);
      memory.bytes := Write(memory.bytes, al.offset, data);
    }

    /** One binding slot: borrowed, or copied from the host. */
    method Bind(storage: InvocationStorage, values: seq<ProgramValue>, s: Slot, ghost x: Invocation,
                ghost env: Environment)
      returns (failure: Option<Failure>, ghost env': Environment)
      requires values == x.values && storage.allocator == allocator && storage.Inv(x, env) && ProperBindings(x)
      requires s < |x.values| && x.values[s].source.Binding? && s !in storage.allocations
      requires Counts(x, 0, [], env, storage.allocations, storage.remainingUses) && s !in env
      modifies storage`allocations, allocator, allocator.memory
      ensures storage.Inv(x, env')
      ensures failure.None? ==>
                && s in x.bindings && env' == env[s := Content(x, x.bindings[s])]
                && storage.allocations.Keys == old(storage.allocations).Keys + {s}
                && Counts(x, 0, [], env', storage.allocations, storage.remainingUses)
    {
      hide State, Counts, LinearMemory.Consistent, ByteLength, Read;
      var bindings := storage.bindings;
      if s in bindings && bindings[s].Resident? {
        var al := bindings[s].allocation;
        if al.id !in allocator.outstanding || allocator.outstanding[al.id] != al
          || al.generation != allocator.generation {
          return Some(StaleAllocation), env;
        }
        BorrowedBefore(x, env, storage.allocations, allocator.outstanding, allocator.memory.bytes, al.id);
        StateBorrowed(x, env, storage.allocations, allocator.outstanding, allocator.memory.bytes, s);
        CountsBound(x, [], env, storage.allocations, storage.remainingUses, s, Content(x, bindings[s]), al);
        storage.allocations := storage.allocations[s := al];
        return None, env[s := Content(x, bindings[s])];
      }
      var reserved;
      reserved, env' := Reserve(storage, s, values[s].shape, x, env);
      if !reserved {
        return Some(OutOfMemory), env';
      }
      if s !in bindings {
        return Some(MissingBinding), env';
      }
      var data := bindings[s].data;
      OwnSize(x, env', storage.allocations, allocator.outstanding, allocator.memory.bytes, s);
      WriteSlot(storage, s, data, x, env');
      CountsBound(x, [], env, old(storage.allocations), storage.remainingUses, s, data, storage.allocations[s]);
      failure, env' := None, env'[s := data];
    }

    /** The allocations of the inputs of a computation. */
    method Fetch(storage: InvocationStorage, values: seq<ProgramValue>,
                 inputs: seq<Slot>) returns (fetched: Option<seq<Allocation>>)
      requires forall i :: 0 <= i < |inputs| ==> inputs[i] < |values|
      ensures fetched.Some? ==> |fetched.value| == |inputs|
      ensures fetched.Some? ==> Fetched(values, inputs, storage.allocations, fetched.value)
    {
      var list := [];
      for i := 0 to |inputs|
        invariant |list| == i && Fetched(values, inputs[..i], storage.allocations, list)
      {
        var slot := values[inputs[i]].storageSlot;
        if slot !in storage.allocations {
          return None;
        }
        list := list + [storage.allocations[slot]];
      }
      assert inputs[..|inputs|] == inputs;
      return Some(list);
    }

    /** The uses of a completed computation. */
    method CompleteInputs(storage: InvocationStorage, values: seq<ProgramValue>, inputs: seq<Slot>, ghost x: Invocation,
                          ghost k: nat, ghost env: Environment)
      requires values == x.values && storage.allocator == allocator && storage.Inv(x, env)
      requires Counts(x, k, inputs, env, storage.allocations, storage.remainingUses)
      requires forall i :: 0 <= i < |inputs| ==> inputs[i] < |values| && values[inputs[i]].storageSlot in env
      requires forall i :: 0 <= i < |inputs| ==> values[inputs[i]].storageSlot < |values|
      requires forall i :: 0 <= i < |inputs| ==>
                 UsesFrom(x.values, x.computations, 0, values[inputs[i]].storageSlot) > 0
      modifies storage, allocator
      ensures storage.Inv(x, env) && Counts(x, k, [], env, storage.allocations, storage.remainingUses)
    {
      assert |storage.remainingUses| == |values|;
      hide State, Counts, LinearMemory.Consistent, UsesFrom, Uses, ByteLength;
      var i := 0;
      assert inputs[0..] == inputs;
      while i < |inputs|
        invariant 0 <= i <= |inputs| && storage.Inv(x, env) && |storage.remainingUses| == |values|
        invariant Counts(x, k, inputs[i..], env, storage.allocations, storage.remainingUses)
      {
        var slot := values[inputs[i]].storageSlot;
        assert inputs[i..] == [inputs[i]] + inputs[i + 1..];
        CountsLength(x, k, inputs[i..], env, storage.allocations, storage.remainingUses);
        storage.CompleteInputUse(slot, x, k, inputs[i], inputs[i + 1..], env);
        i := i + 1;
        CountsLength(x, k, inputs[i..], env, storage.allocations, storage.remainingUses);
      }
      assert inputs[|inputs|..] == [];
    }

    /** What a failed kernel wrote stays inside its own output. */
    method LeavePartial(storage: InvocationStorage, output: Slot, written: Bytes, ghost x: Invocation,
                        ghost env: Environment)
      returns (ghost env': Environment)
      requires storage.allocator == allocator && storage.Inv(x, env)
      requires output in storage.allocations && !Borrowed(x, output)
      modifies allocator.memory
      ensures storage.Inv(x, env')
    {
      hide State, LinearMemory.Consistent;
      var al := storage.allocations[output];
      HeldIsLive(x, env, storage.allocations, allocator.outstanding, allocator.memory.bytes, output);
      LiveInMemory(allocator.base, allocator.cursor, allocator.freeSegments, allocator.freeSegmentByteBound,
                   allocator.outstanding, allocator.next, allocator.liveReservedBytes, allocator.livePayloadBytes,
                   allocator.memory.bytes);
      var data := Overwritten(Read(allocator.memory.bytes, al), written);
      WriteSlot(storage, output, data, x, env);
      env' := env[output := data];
    }

    /** One computation: inputs found, output reserved, kernel called, uses completed. */
    method Compute(storage: InvocationStorage, values: seq<ProgramValue>, c: Computation, apply: Semantics,
                   ghost x: Invocation, ghost k: nat, ghost env: Environment)
      returns (failure: Option<Failure>, ghost env': Environment)
      requires values == x.values && storage.allocator == allocator && storage.Inv(x, env) && Sized(apply)
      requires k < |x.computations| && c == x.computations[k] && c.output < |values| && c.output !in env
      requires !Borrowed(x, c.output)
      requires UsesFrom(x.values, x.computations, 0, c.output) == UsesFrom(x.values, x.computations, k, c.output)
      requires Counts(x, k, [], env, storage.allocations, storage.remainingUses)
      requires forall i :: 0 <= i < |c.inputs| ==> c.inputs[i] < |values| && values[c.inputs[i]].storageSlot in env
      requires forall i :: 0 <= i < |c.inputs| ==> values[c.inputs[i]].storageSlot < |values|
      modifies this, storage, allocator, allocator.memory
      ensures storage.Inv(x, env')
      ensures failure.None? ==>
                && env' == env[c.output := apply(c.operation, Operands(values, env, c.inputs), values[c.output].shape)]
                && Counts(x, k + 1, [], env', storage.allocations, storage.remainingUses)
    {
      hide State, Counts, LinearMemory.Consistent, UsesFrom, Uses, ByteLength, Read, Operands, Fetched, OperandsAt;
      var fetched := Fetch(storage, values, c.inputs);
      if fetched.None? {
        return Some(UnboundOperand), env;
      }
      HeldKnown(x, env, storage.allocations, allocator.outstanding, allocator.memory.bytes);
      ghost var held := storage.allocations;
      var reserved;
      reserved, env' := Reserve(storage, c.output, values[c.output].shape, x, env);
      if !reserved {
        return Some(OutOfMemory), env';
      }
      var outcome := if outcomes == [] then Accepted else outcomes[0];
      outcomes := if outcomes == [] then [] else outcomes[1..];
      if !outcome.Accepted? {
        env' := LeavePartial(storage, c.output, outcome.written, x, env');
        poisoned := poisoned || outcome.Trapped?;
        return Some(if outcome.Trapped? then KernelTrapped else KernelRejected), env';
      }
      var operands := OperandsAt(values, c.inputs, fetched.value, allocator.memory.bytes);
      FetchedStill(values, c.inputs, held, storage.allocations, fetched.value);
      FetchedOperands(x, env, env', storage.allocations, allocator.outstanding, allocator.memory.bytes, c.inputs,
                      fetched.value);
      var data := apply(c.operation, operands, values[c.output].shape);
      OwnSize(x, env', storage.allocations, allocator.outstanding, allocator.memory.bytes, c.output);
      WriteSlot(storage, c.output, data, x, env');
      env' := env'[c.output := data];
      assert env' == env[c.output := data];
      CountsNext(x, k, k + 1, [], env, held, storage.remainingUses, c.output, data, storage.allocations[c.output]);
      UsedInputs(x, k);
      CompleteInputs(storage, values, c.inputs, x, k + 1, env');
      failure := None;
    }

    /** All binding slots in order. */
    method BindAll(storage: InvocationStorage, values: seq<ProgramValue>, ghost x: Invocation)
      returns (failure: Option<Failure>, ghost env: Environment)
      requires values == x.values && storage.allocator == allocator && storage.Inv(x, map[]) && ProperBindings(x)
      requires storage.allocations == map[] && Counts(x, 0, [], map[], map[], storage.remainingUses)
      modifies storage`allocations, allocator, allocator.memory
      ensures storage.Inv(x, env)
      ensures failure.None? ==>
                && env == BoundBelow(x, |values|) && storage.allocations.Keys == env.Keys
                && Counts(x, 0, [], env, storage.allocations, storage.remainingUses)
                && forall s :: 0 <= s < |values| && values[s].source.Binding? ==> s in x.bindings
    {
      hide State, Counts, LinearMemory.Consistent, UsesFrom, Uses, ByteLength, Read, ProperBindings, BoundBelow;
      env := map[];
      BoundBelowNone(x);
      var s := 0;
      while s < |values|
        invariant s <= |values| && storage.Inv(x, env) && env == BoundBelow(x, s)
        invariant storage.allocations.Keys == env.Keys
        invariant Counts(x, 0, [], env, storage.allocations, storage.remainingUses)
        invariant forall t :: 0 <= t < s && values[t].source.Binding? ==> t in x.bindings
      {
        BoundBelowNext(x, s);
        if values[s].source.Binding? {
          assert s !in storage.allocations.Keys;
          failure, env := Bind(storage, values, s, x, env);
          if failure.Some? {
            return;
          }
        }
        s := s + 1;
      }
      failure := None;
    }

    /** All computations in order. */
    method ComputeAll(storage: InvocationStorage, values: seq<ProgramValue>, computations: seq<Computation>,
                      apply: Semantics, ghost x: Invocation)
      returns (failure: Option<Failure>, ghost env: Environment)
      requires values == x.values && computations == x.computations && storage.allocator == allocator && Sized(apply)
      requires WellFormed(values, computations) && ProperBindings(x) && storage.Inv(x, BoundBelow(x, |values|))
      requires Bound(values, BoundBelow(x, |values|))
      requires Counts(x, 0, [], BoundBelow(x, |values|), storage.allocations, storage.remainingUses)
      modifies this, storage, allocator, allocator.memory
      ensures storage.Inv(x, env)
      ensures failure.None? ==>
                && env == Evaluate(apply, values, computations, BoundBelow(x, |values|), |computations|)
                && Counts(x, |computations|, [], env, storage.allocations, storage.remainingUses)
    {
      OutputsKnown(values, computations);
      hide State, Counts, LinearMemory.Consistent, UsesFrom, Uses, ByteLength, Read, ProperBindings, BoundBelow, Bound,
           WellFormed, Operands;
      ghost var env0 := BoundBelow(x, |values|);
      env := env0;
      var k := 0;
      while k < |computations|
        invariant k <= |computations| && storage.Inv(x, env)
        invariant env == Evaluate(apply, values, computations, env0, k)
        invariant Counts(x, k, [], env, storage.allocations, storage.remainingUses)
      {
        ReadyToCompute(x, apply, k);
        UnreadOutput(x, k);
        StorageInside(values, computations, k);
        failure, env := Compute(storage, values, computations[k], apply, x, k, env);
        if failure.Some? {
          return;
        }
        k := k + 1;
      }
      failure := None;
    }

    /**
     * Runs a program. If a step fails, exactly the allocations from before are
     * live; if none does, what is live besides them are the slots that were
     * retained or never read, and every slot returned holds its evaluation.
     */
    method Execute(program: ExecutableProgram, bindings: map<Slot, Materialization<Allocation>>, retained: seq<bool>,
                   apply: Semantics) returns (result: ExecutionResult, ghost x: Invocation)
      requires allocator.Valid() && |allocator.memory.bytes| % PAGE_BYTES == 0 && Sized(apply)
      requires ProperProgram(program)
      requires ProperBindings(Invocation(program.values, program.computations, bindings, retained,
                                         allocator.outstanding, allocator.next, allocator.memory.bytes))
      modifies this, allocator, allocator.memory
      ensures x == Invocation(program.values, program.computations, bindings, retained, old(allocator.outstanding),
                              old(allocator.next), old(allocator.memory.bytes))
      ensures allocator.Valid() && |allocator.memory.bytes| % PAGE_BYTES == 0
      ensures Undisturbed(x, allocator.memory.bytes)
      ensures result.Failed? ==> allocator.outstanding == old(allocator.outstanding)
      ensures result.Executed? ==>
                Outcomes(x, apply, result.allocations, allocator.outstanding, allocator.memory.bytes)
    {
      x := Invocation(program.values, program.computations, bindings, retained, allocator.outstanding,
                      allocator.next, allocator.memory.bytes);
      StateEmpty(x);
      UndisturbedAt(x, map[], map[], x.before, x.memory);
      if poisoned {
        return Failed(Quarantined), x;
      }
      hide State, Counts, LinearMemory.Consistent, UsesFrom, Uses, ByteLength, Read, ProperBindings, Sized, Outcomes,
           Undisturbed, WellFormed, Bound;
      var values := program.values;
      var storage := new InvocationStorage(allocator, bindings, retained, program.storageUseCounts, x);
      ghost var env;
      var failure;
      failure, env := BindAll(storage, values, x);
      if failure.None? {
        LiveInMemory(allocator.base, allocator.cursor, allocator.freeSegments, allocator.freeSegmentByteBound,
                     allocator.outstanding, allocator.next, allocator.liveReservedBytes, allocator.livePayloadBytes,
                     allocator.memory.bytes);
        AllBound(x, env, storage.allocations, allocator.outstanding, allocator.memory.bytes);
        failure, env := ComputeAll(storage, values, program.computations, apply, x);
      }
      UndisturbedAt(x, env, storage.allocations, allocator.outstanding, allocator.memory.bytes);
      if failure.Some? {
        storage.Rollback(x, env);
        return Failed(failure.value), x;
      }
      OutputsKnown(values, program.computations);
      OutcomesAt(x, apply, env, storage.allocations, storage.remainingUses, allocator.outstanding,
                 allocator.memory.bytes);
      return Executed(storage.allocations), x;
    }
  }

  /** What was live before still holds what it held. */
  ghost predicate Undisturbed(x: Invocation, bytes: seq<int>) {
    forall id :: id in x.before ==> Read(bytes, x.before[id]) == Read(x.memory, x.before[id])
  }

  /**
   * The result of a run that returned: the slots kept are those borrowed,
   * retained or never read, each holds its evaluation in a live allocation, and
   * whatever is live was live before or belongs to one of them.
   */
  ghost predicate Outcomes(x: Invocation, apply: Semantics, held: map<Slot, Allocation>, live: map<nat, Allocation>,
                           bytes: seq<int>)
  {
    && (forall k :: 0 <= k < |x.computations| ==> x.computations[k].output < |x.values|)
    && State(x, Evaluate(apply, x.values, x.computations, BoundBelow(x, |x.values|), |x.computations|), held, live,
             bytes)
    && forall s: Slot :: s in held <==>
         && s < |x.values| && !x.values[s].source.Alias?
         && (Protected(x, s) || UsesFrom(x.values, x.computations, 0, s) == 0)
  }

  lemma UndisturbedAt(x: Invocation, env: Environment, held: map<Slot, Allocation>, live: map<nat, Allocation>,
                      bytes: seq<int>)
    requires State(x, env, held, live, bytes)
    ensures Undisturbed(x, bytes)
  {
    hide Read;
  }

  lemma OutcomesAt(x: Invocation, apply: Semantics, env: Environment, held: map<Slot, Allocation>, remaining: seq<int>,
                   live: map<nat, Allocation>, bytes: seq<int>)
    requires WellFormed(x.values, x.computations) && Sized(apply) && Bound(x.values, BoundBelow(x, |x.values|))
    requires forall k :: 0 <= k < |x.computations| ==> x.computations[k].output < |x.values|
    requires env == Evaluate(apply, x.values, x.computations, BoundBelow(x, |x.values|), |x.computations|)
    requires State(x, env, held, live, bytes) && Counts(x, |x.computations|, [], env, held, remaining)
    ensures Outcomes(x, apply, held, live, bytes)
  {
    HeldKnown(x, env, held, live, bytes);
    forall s: Slot
      ensures s in held <==>
                && s < |x.values| && !x.values[s].source.Alias?
                && (Protected(x, s) || UsesFrom(x.values, x.computations, 0, s) == 0)
    {
      EvaluateKnown(apply, x.values, x.computations, BoundBelow(x, |x.values|), |x.computations|, s);
      FinalSlot(x, env, held, remaining, s);
    }
    hide State, Counts, WellFormed, BoundBelow, Evaluate;
  }

  lemma FinalSlot(x: Invocation, env: Environment, held: map<Slot, Allocation>, remaining: seq<int>, s: Slot)
    requires WellFormed(x.values, x.computations) && Counts(x, |x.computations|, [], env, held, remaining)
    requires s in env <==>
             (&& s < |x.values|
              && (x.values[s].source.Binding? || ComputedBefore(x.computations, |x.computations|, s)))
    requires s in held ==> s in env
    ensures s in held <==>
              && s < |x.values| && !x.values[s].source.Alias?
              && (Protected(x, s) || UsesFrom(x.values, x.computations, 0, s) == 0)
  {
    if s < |x.values| {
      assert Counted(x, |x.computations|, [], remaining, s) && Kept(x, env, held, remaining, s);
      assert Uses(x.values, [], s) == 0;
      if ComputedBefore(x.computations, |x.computations|, s) {
        var j :| 0 <= j < |x.computations| && x.computations[j].output == s;
        assert ProperComputation(x.values, x.computations[j]);
      }
    }
    hide Protected;
  }

  lemma StateEmpty(x: Invocation)
    ensures State(x, map[], map[], x.before, x.memory)
  {
  }

  lemma BoundBelowNone(x: Invocation)
    ensures BoundBelow(x, 0) == map[]
  {
  }

  lemma AllBound(x: Invocation, env: Environment, held: map<Slot, Allocation>, live: map<nat, Allocation>,
                 bytes: seq<int>)
    requires State(x, env, held, live, bytes) && held.Keys == env.Keys && env == BoundBelow(x, |x.values|)
    requires forall id :: id in live ==> InMemory(bytes, live[id])
    requires forall s :: 0 <= s < |x.values| && x.values[s].source.Binding? ==> s in x.bindings
    ensures Bound(x.values, BoundBelow(x, |x.values|))
  {
    forall s: Slot | s in env && s < |x.values| ensures |env[s]| == ByteLength(x.values[s].shape) {
      assert s in held.Keys;
      BoundSize(x, env, held, live, bytes, s);
    }
    hide State, Content, ByteLength, InMemory;
  }

  lemma BoundSize(x: Invocation, env: Environment, held: map<Slot, Allocation>, live: map<nat, Allocation>,
                  bytes: seq<int>, s: Slot)
    requires State(x, env, held, live, bytes) && s in held && s < |x.values|
    requires forall id :: id in live ==> InMemory(bytes, live[id])
    ensures s in env && |env[s]| == ByteLength(x.values[s].shape)
  {
    HeldIsLive(x, env, held, live, bytes, s);
    OwnSize(x, env, held, live, bytes, s);
    hide State, ByteLength;
  }

  lemma OutputsKnown(values: seq<ProgramValue>, computations: seq<Computation>)
    requires WellFormed(values, computations)
    ensures forall j :: 0 <= j < |computations| ==> computations[j].output < |values|
  {
    forall j | 0 <= j < |computations| ensures computations[j].output < |values| {
      assert ProperComputation(values, computations[j]);
    }
  }

  lemma UnreadOutput(x: Invocation, k: nat)
    requires WellFormed(x.values, x.computations) && k < |x.computations|
    ensures UsesFrom(x.values, x.computations, 0, x.computations[k].output)
         == UsesFrom(x.values, x.computations, k, x.computations[k].output)
  {
    NotReadBefore(x.values, x.computations, k, k, x.computations[k].output);
  }

  lemma StorageInside(values: seq<ProgramValue>, computations: seq<Computation>, k: nat)
    requires WellFormed(values, computations) && k < |computations|
    ensures forall i :: 0 <= i < |computations[k].inputs| ==>
              computations[k].inputs[i] < |values| && values[computations[k].inputs[i]].storageSlot < |values|
  {
    forall i | 0 <= i < |computations[k].inputs|
      ensures computations[k].inputs[i] < |values| && values[computations[k].inputs[i]].storageSlot < |values|
    {
      OperandKnown(values, computations, k, i);
    }
  }

  /** The list holds the allocation of each input's storage. */
  predicate Fetched(values: seq<ProgramValue>, inputs: seq<Slot>, held: map<Slot, Allocation>, fetched: seq<Allocation>)
  {
    && |fetched| == |inputs|
    && forall i :: 0 <= i < |inputs| ==>
         && inputs[i] < |values| && values[inputs[i]].storageSlot in held
         && held[values[inputs[i]].storageSlot] == fetched[i]
  }

  lemma FetchedStill(values: seq<ProgramValue>, inputs: seq<Slot>, held: map<Slot, Allocation>,
                     held': map<Slot, Allocation>, fetched: seq<Allocation>)
    requires Fetched(values, inputs, held, fetched)
    requires forall s :: s in held ==> s in held' && held'[s] == held[s]
    ensures Fetched(values, inputs, held', fetched)
  {
  }

  lemma FetchedOperands(x: Invocation, env: Environment, env': Environment, held: map<Slot, Allocation>,
                        live: map<nat, Allocation>, bytes: seq<int>, inputs: seq<Slot>, fetched: seq<Allocation>)
    requires State(x, env', held, live, bytes) && Fetched(x.values, inputs, held, fetched)
    requires forall i :: 0 <= i < |inputs| ==> inputs[i] < |x.values| && x.values[inputs[i]].storageSlot in env
    requires forall s :: s in env ==> s in env' && env'[s] == env[s]
    ensures OperandsAt(x.values, inputs, fetched, bytes) == Operands(x.values, env, inputs)
  {
    hide State, Operands, OperandsAt;
    OperandsRead(x, env', held, live, bytes, inputs, fetched);
    OperandsSame(x.values, env, env', inputs);
  }

  lemma UsedInputs(x: Invocation, k: nat)
    requires k < |x.computations|
    requires forall i :: 0 <= i < |x.computations[k].inputs| ==> x.computations[k].inputs[i] < |x.values|
    ensures forall i :: 0 <= i < |x.computations[k].inputs| ==>
              UsesFrom(x.values, x.computations, 0, x.values[x.computations[k].inputs[i]].storageSlot) > 0
  {
    forall i | 0 <= i < |x.computations[k].inputs|
      ensures UsesFrom(x.values, x.computations, 0, x.values[x.computations[k].inputs[i]].storageSlot) > 0
    {
      InputUsed(x.values, x.computations, k, i);
    }
  }

  lemma CountsLength(x: Invocation, k: nat, pending: seq<Slot>, env: Environment, held: map<Slot, Allocation>,
                     remaining: seq<int>)
    requires Counts(x, k, pending, env, held, remaining)
    ensures |remaining| == |x.values|
  {
  }

  /** Running a formed program: a returned slot holds the recursive meaning of every value stored in it. */
  lemma FormedExecution(g: Graph, m: Materials<Allocation>, rank: Value -> nat, f: Formed<Allocation>, x: Invocation,
                        apply: Semantics,
                        held: map<Slot, Allocation>, live: map<nat, Allocation>, bytes: seq<int>, v: Value)
    requires Admitted(g, m, rank) && Lowered(g, m, f) && v in f.slots && v in g && f.slots[v] < |f.values|
    requires x.values == f.values && x.computations == f.computations && x.bindings == f.bindings
    requires Outcomes(x, apply, held, live, bytes) && f.values[f.slots[v]].storageSlot in held
    ensures Read(bytes, held[f.values[f.slots[v]].storageSlot])
         == Meaning(g, m, rank, apply, (al: Allocation) => Read(x.memory, al), v)
  {
    var read := (al: Allocation) => Read(x.memory, al);
    FormedMeaning(g, m, rank, apply, read, f, v);
    FormedContents(g, m, f, x, read);
    var env := Evaluate(apply, x.values, x.computations, BoundBelow(x, |x.values|), |x.computations|);
    HeldIsLive(x, env, held, live, bytes, f.values[f.slots[v]].storageSlot);
    hide State, Read, Lowered, Admitted, Evaluate, BoundBelow, InitialContents;
  }

  lemma FormedContents(g: Graph, m: Materials<Allocation>, f: Formed<Allocation>, x: Invocation,
                       read: Allocation -> Bytes)
    requires Lowered(g, m, f) && x.values == f.values && x.bindings == f.bindings
    requires forall al :: read(al) == Read(x.memory, al)
    ensures InitialContents(f, read) == BoundBelow(x, |x.values|)
  {
    forall s | s in f.bindings ensures s < |x.values| && x.values[s].source.Binding? {
      assert Describes(g, m, f, s);
    }
    hide Lowered, Read, Describes;
  }
}
