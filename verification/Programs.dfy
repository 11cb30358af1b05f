/**
 * Executable programs: values in numbered slots, aliases that share the storage
 * of another slot, and computations in order. Their meaning is given on the
 * contents of storage, without any memory.
 */
module Programs {
  import opened Options

  type Bytes = seq<int>

  type Slot = nat

  datatype Kind = AddF32 | AddAlphaF32 | MulF32 | SumF32 | ExpandF32 | MatmulF32

  /** What a kernel is told besides its operands. */
  datatype Operation = Operation(kind: Kind, alphaBits: Option<nat>, matrixFlags: Option<nat>)

  datatype Tensor = Tensor(shape: seq<nat>, data: Bytes)

  /** The elements of a result from its operands and its shape. */
  type Semantics = (Operation, seq<Tensor>, seq<nat>) -> Bytes

  function Elements(shape: seq<nat>): nat
    decreases |shape|
  {
    if shape == [] then 1 else Scaled(shape[0], Elements(shape[1..]))
  }

  function Scaled(a: nat, b: nat): (r: nat)
    decreases a
  {
    if a == 0 then 0 else b + Scaled(a - 1, b)
  }

  function ByteLength(shape: seq<nat>): nat { 4 * Elements(shape) }

  ghost predicate Sized(apply: Semantics) {
    forall op, operands, shape :: |apply(op, operands, shape)| == ByteLength(shape)
  }

  datatype Source = Binding | Computed | Alias

  datatype ProgramValue = ProgramValue(slot: Slot, storageSlot: Slot, shape: seq<nat>, source: Source)

  datatype Computation = Computation(operation: Operation, inputs: seq<Slot>, output: Slot)

  /** An alias shares the payload of an earlier storage slot of the same size. */
  predicate ProperValue(values: seq<ProgramValue>, s: Slot)
    requires s < |values|
  {
    var v := values[s];
    && v.slot == s && v.storageSlot <= s && (v.source.Alias? <==> v.storageSlot != s)
    && !values[v.storageSlot].source.Alias?
    && ByteLength(v.shape) == ByteLength(values[v.storageSlot].shape)
  }

  predicate ProperComputation(values: seq<ProgramValue>, c: Computation) {
    && c.output < |values| && values[c.output].source.Computed?
    && forall i :: 0 <= i < |c.inputs| ==> c.inputs[i] < c.output
  }

  /** Slot s is computed by some computation before the given one. */
  predicate ComputedBefore(computations: seq<Computation>, k: nat, s: Slot) {
    exists j :: 0 <= j < k && j < |computations| && computations[j].output == s
  }

  predicate WellFormed(values: seq<ProgramValue>, computations: seq<Computation>) {
    && (forall s :: 0 <= s < |values| ==> ProperValue(values, s))
    && (forall k :: 0 <= k < |computations| ==> ProperComputation(values, computations[k]))
    && (forall j, k :: 0 <= j < k < |computations| ==> computations[j].output < computations[k].output)
    && (forall s :: 0 <= s < |values| && values[s].source.Computed? ==>
          ComputedBefore(computations, |computations|, s))
  }

  type Environment = map<Slot, Bytes>

  function Contents(env: Environment, s: Slot): Bytes { if s in env then env[s] else [] }

  function Operand(values: seq<ProgramValue>, env: Environment, s: Slot): Tensor {
    if s < |values| then Tensor(values[s].shape, Contents(env, values[s].storageSlot)) else Tensor([], [])
  }

  function Operands(values: seq<ProgramValue>, env: Environment, inputs: seq<Slot>): seq<Tensor> {
    seq(|inputs|, i requires 0 <= i < |inputs| => Operand(values, env, inputs[i]))
  }

  /** The contents after the first k computations. */
  function Evaluate(apply: Semantics, values: seq<ProgramValue>, computations: seq<Computation>, env: Environment,
                    k: nat): Environment
    requires k <= |computations|
    requires forall j :: 0 <= j < |computations| ==> computations[j].output < |values|
  {
    if k == 0 then env
    else
      var before := Evaluate(apply, values, computations, env, k - 1);
      var c := computations[k - 1];
      before[c.output := apply(c.operation, Operands(values, before, c.inputs), values[c.output].shape)]
  }

  /** Binding slots have contents of their size. */
  ghost predicate Bound(values: seq<ProgramValue>, env: Environment) {
    && (forall s: Slot :: s in env <==> s < |values| && values[s].source.Binding?)
    && (forall s: Slot :: s in env && s < |values| ==> |env[s]| == ByteLength(values[s].shape))
  }

  /** In a well-formed program the storage of every operand is known when it is needed. */
  lemma {:induction false} EvaluateKnown(apply: Semantics, values: seq<ProgramValue>, computations: seq<Computation>,
                                         env: Environment, k: nat, s: Slot)
    requires WellFormed(values, computations) && Bound(values, env) && Sized(apply) && k <= |computations|
    ensures var after := Evaluate(apply, values, computations, env, k);
            && (s in after <==> s < |values| && (values[s].source.Binding? || ComputedBefore(computations, k, s)))
            && (s in after && s < |values| ==> |after[s]| == ByteLength(values[s].shape))
  {
    if k > 0 {
      EvaluateKnown(apply, values, computations, env, k - 1, s);
      var c := computations[k - 1];
      assert ProperComputation(values, c);
      if ComputedBefore(computations, k, s) {
        var j :| 0 <= j < k && j < |computations| && computations[j].output == s;
        assert j < k - 1 ==> ComputedBefore(computations, k - 1, s);
      }
      if s == c.output {
        assert computations[k - 1].output == s;
      }
    }
  }

  /** Whatever is needed at computation k is computed before it. */
  lemma OperandKnown(values: seq<ProgramValue>, computations: seq<Computation>, k: nat, i: nat)
    requires WellFormed(values, computations) && k < |computations| && i < |computations[k].inputs|
    ensures computations[k].inputs[i] < |values|
    ensures var y := values[computations[k].inputs[i]].storageSlot;
            y < computations[k].output && (values[y].source.Binding? || ComputedBefore(computations, k, y))
  {
    var c := computations[k];
    assert ProperComputation(values, c);
    var x := c.inputs[i];
    assert ProperValue(values, x);
    var y := values[x].storageSlot;
    if values[y].source.Computed? {
      assert ComputedBefore(computations, |computations|, y);
      var j :| 0 <= j < |computations| && computations[j].output == y;
      assert j < k;
    }
  }
}
