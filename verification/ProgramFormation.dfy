/**
 * Lowering of a selected value graph to a program by an explicit stack: shared
 * values are visited once, inputs before consumers, and values already resident
 * cut the traversal.
 */
module ProgramFormation {
  import opened Options
  import opened Programs

  type Value = nat

  datatype Producer = Producer(operation: Operation, inputs: seq<Value>)

  datatype FormationValue = FormationValue(storageValue: Value, shape: seq<nat>, producer: Option<Producer>)

  datatype Materialization<A> = Host(data: Bytes) | Resident(allocation: A)

  type Graph = map<Value, FormationValue>

  type Materials<A> = map<Value, Materialization<A>>

  /** The producer that formation follows: none for an alias or a resident value. */
  function ActiveProducer<A>(g: Graph, m: Materials<A>, v: Value): Option<Producer>
    requires v in g
  {
    if g[v].storageValue != v || (v in m && m[v].Resident?) then None else g[v].producer
  }

  /** A value of the admitted graph: everything it refers to is there and ranked below it. */
  predicate AdmittedValue<A>(g: Graph, m: Materials<A>, rank: Value -> nat, v: Value)
    requires v in g
  {
    var root := g[v].storageValue;
    && root in g && g[root].storageValue == root && ByteLength(g[root].shape) == ByteLength(g[v].shape)
    && (root != v ==> rank(root) < rank(v))
    && (g[v].producer.Some? ==>
          forall i :: 0 <= i < |g[v].producer.value.inputs| ==>
            g[v].producer.value.inputs[i] in g && rank(g[v].producer.value.inputs[i]) < rank(v))
    && (v in m && m[v].Host? ==> g[v].producer.None? && |m[v].data| == ByteLength(g[v].shape))
    && (root == v && g[v].producer.None? ==> v in m)
  }

  ghost predicate Admitted<A>(g: Graph, m: Materials<A>, rank: Value -> nat) {
    forall v :: v in g ==> AdmittedValue(g, m, rank, v)
  }

  function ContentOf<A>(material: Materialization<A>, read: A -> Bytes): Bytes {
    match material
    case Host(data) => data
    case Resident(allocation) => read(allocation)
  }

  /** The recursive meaning of a value: what its own payload holds, or what its operation makes of its inputs. */
  ghost function Meaning<A>(g: Graph, m: Materials<A>, rank: Value -> nat, apply: Semantics, read: A -> Bytes,
                         v: Value): Bytes
    requires v in g && Admitted(g, m, rank)
    decreases rank(v)
  {
    assert AdmittedValue(g, m, rank, v);
    var root := g[v].storageValue;
    if root != v then Meaning(g, m, rank, apply, read, root)
    else
      match ActiveProducer(g, m, v)
      case None => ContentOf(m[v], read)
      case Some(producer) =>
        apply(producer.operation, Inputs(g, m, rank, apply, read, v, producer.inputs, |producer.inputs|), g[v].shape)
  }

  /** The meanings of the first n inputs of v, in their shapes. */
  ghost function Inputs<A>(g: Graph, m: Materials<A>, rank: Value -> nat, apply: Semantics, read: A -> Bytes,
                        v: Value, inputs: seq<Value>, n: nat): (r: seq<Tensor>)
    requires Admitted(g, m, rank) && n <= |inputs|
    requires forall i :: 0 <= i < |inputs| ==> inputs[i] in g && rank(inputs[i]) < rank(v)
    ensures |r| == n
    ensures forall i :: 0 <= i < n ==>
              r[i] == Tensor(g[inputs[i]].shape, Meaning(g, m, rank, apply, read, inputs[i]))
    decreases rank(v), 0, n
  {
    if n == 0 then []
    else
      Inputs(g, m, rank, apply, read, v, inputs, n - 1)
      + [Tensor(g[inputs[n - 1]].shape, Meaning(g, m, rank, apply, read, inputs[n - 1]))]
  }

  datatype Frame<A> = Frame(value: Value, producer: Option<Producer>, material: Option<Materialization<A>>,
                            nextInput: nat)

  function FormationFrame<A>(g: Graph, m: Materials<A>, v: Value): Frame<A>
    requires v in g
  {
    Frame(v, ActiveProducer(g, m, v), if v in m then Some(m[v]) else None, 0)
  }

  datatype Formed<A> = Formed(
    slots: map<Value, Slot>, values: seq<ProgramValue>, computations: seq<Computation>,
    bindings: map<Slot, Materialization<A>>, valuesBySlot: seq<Value>, newlyComputed: seq<Value>)

  function SourceOf<A>(g: Graph, m: Materials<A>, v: Value): Source
    requires v in g
  {
    if g[v].storageValue != v then Alias else if ActiveProducer(g, m, v).None? then Binding else Computed
  }

  /** The slot s describes the value recorded for it, after everything it refers to. */
  ghost predicate Describes<A>(g: Graph, m: Materials<A>, f: Formed<A>, s: Slot)
    requires |f.values| == |f.valuesBySlot| && s < |f.values|
  {
    var v, p := f.valuesBySlot[s], f.values[s];
    && v in g && v in f.slots && f.slots[v] == s
    && g[v].storageValue in f.slots && p == ProgramValue(s, f.slots[g[v].storageValue], g[v].shape, SourceOf(g, m, v))
    && p.storageSlot <= s
    && (s in f.bindings <==> p.source.Binding?)
    && (s in f.bindings ==> v in m && f.bindings[s] == m[v])
    && (p.source.Computed? ==> ComputedBefore(f.computations, |f.computations|, s))
  }

  /** Computation k is the producer of its output, with the slots of its inputs. */
  predicate Lowers<A>(g: Graph, m: Materials<A>, f: Formed<A>, k: nat)
    requires k < |f.computations|
  {
    var c := f.computations[k];
    && c.output < |f.values| == |f.valuesBySlot| && k < |f.newlyComputed|
    && f.newlyComputed[k] == f.valuesBySlot[c.output] && f.valuesBySlot[c.output] in g
    && var producer := ActiveProducer(g, m, f.valuesBySlot[c.output]);
       && producer.Some? && c.operation == producer.value.operation && |c.inputs| == |producer.value.inputs|
       && forall i :: 0 <= i < |c.inputs| ==>
            producer.value.inputs[i] in f.slots && c.inputs[i] == f.slots[producer.value.inputs[i]] < c.output
  }

  /** Everything slotted so far is lowered, each value once, in order. */
  ghost predicate Lowered<A>(g: Graph, m: Materials<A>, f: Formed<A>) {
    && |f.values| == |f.valuesBySlot| && |f.newlyComputed| == |f.computations|
    && (forall v :: v in f.slots ==> f.slots[v] < |f.values| && f.valuesBySlot[f.slots[v]] == v)
    && (forall s :: 0 <= s < |f.values| ==> Describes(g, m, f, s))
    && (forall s :: s in f.bindings ==> s < |f.values|)
    && (forall k :: 0 <= k < |f.computations| ==> Lowers(g, m, f, k))
    && (forall j, k :: 0 <= j < k < |f.computations| ==> f.computations[j].output < f.computations[k].output)
  }

  /** Every value below has a slot. */
  predicate Ready<A>(g: Graph, m: Materials<A>, f: Formed<A>, v: Value)
    requires v in g
  {
    && v !in f.slots && (g[v].storageValue != v ==> g[v].storageValue in f.slots)
    && (ActiveProducer(g, m, v).Some? ==>
          forall i :: 0 <= i < |ActiveProducer(g, m, v).value.inputs| ==>
            ActiveProducer(g, m, v).value.inputs[i] in f.slots)
  }

  /** The next slot goes to v. */
  function Complete<A>(g: Graph, m: Materials<A>, f: Formed<A>, v: Value): Formed<A>
    requires v in g && Ready(g, m, f, v)
  {
    var slot := |f.values|;
    var storageSlot := if g[v].storageValue == v then slot else f.slots[g[v].storageValue];
    var producer := ActiveProducer(g, m, v);
    var slots := f.slots[v := slot];
    Formed(
      slots,
      f.values + [ProgramValue(slot, storageSlot, g[v].shape,
                               if storageSlot != slot then Alias else if producer.None? then Binding else Computed)],
      if producer.None? then f.computations
      else
        f.computations + [Computation(producer.value.operation, SlotsOf(f.slots, producer.value.inputs), slot)],
      if storageSlot == slot && v in m then f.bindings[slot := m[v]] else f.bindings,
      f.valuesBySlot + [v],
      if producer.None? then f.newlyComputed else f.newlyComputed + [v])
  }

  function SlotsOf(slots: map<Value, Slot>, inputs: seq<Value>): (r: seq<Slot>)
    requires forall i :: 0 <= i < |inputs| ==> inputs[i] in slots
    ensures |r| == |inputs| && forall i :: 0 <= i < |inputs| ==> r[i] == slots[inputs[i]]
  {
    seq(|inputs|, i requires 0 <= i < |inputs| => slots[inputs[i]])
  }

  /** f' continues f. */
  ghost predicate Extends<A>(f: Formed<A>, f': Formed<A>) {
    && f.values <= f'.values && f.valuesBySlot <= f'.valuesBySlot && f.computations <= f'.computations
    && f.newlyComputed <= f'.newlyComputed
    && (forall v :: v in f.slots ==> v in f'.slots && f'.slots[v] == f.slots[v])
    && (forall s :: s < |f.values| ==> (s in f'.bindings <==> s in f.bindings))
    && (forall s :: s < |f.values| && s in f.bindings ==> f'.bindings[s] == f.bindings[s])
  }

  lemma DescribesKept<A>(g: Graph, m: Materials<A>, f: Formed<A>, f': Formed<A>, s: Slot)
    requires |f.values| == |f.valuesBySlot| && |f'.values| == |f'.valuesBySlot| && s < |f.values|
    requires Extends(f, f') && Describes(g, m, f, s)
    ensures Describes(g, m, f', s)
  {
    if f.values[s].source.Computed? {
      var j :| 0 <= j < |f.computations| && f.computations[j].output == s;
      assert f'.computations[j] == f.computations[j];
    }
    hide ActiveProducer, SourceOf;
  }

  lemma LowersKept<A>(g: Graph, m: Materials<A>, f: Formed<A>, f': Formed<A>, k: nat)
    requires |f'.values| == |f'.valuesBySlot| && k < |f.computations|
    requires Extends(f, f') && Lowers(g, m, f, k)
    ensures Lowers(g, m, f', k)
  {
    hide ActiveProducer;
  }

  lemma CompleteExtends<A>(g: Graph, m: Materials<A>, f: Formed<A>, v: Value)
    requires v in g && Ready(g, m, f, v) && Lowered(g, m, f)
    ensures Extends(f, Complete(g, m, f, v))
  {
    hide ActiveProducer, SlotsOf, Describes, Lowers;
  }

  lemma DescribesNew<A>(g: Graph, m: Materials<A>, rank: Value -> nat, f: Formed<A>, v: Value)
    requires Admitted(g, m, rank) && Lowered(g, m, f) && v in g && Ready(g, m, f, v)
    ensures Describes(g, m, Complete(g, m, f, v), |f.values|)
  {
    var f' := Complete(g, m, f, v);
    assert AdmittedValue(g, m, rank, v);
    if ActiveProducer(g, m, v).Some? {
      assert f'.computations[|f.computations|].output == |f.values|;
    }
    hide Describes, Lowers;
    DescribesNewParts(g, m, f, v);
  }

  lemma DescribesNewParts<A>(g: Graph, m: Materials<A>, f: Formed<A>, v: Value)
    requires v in g && Ready(g, m, f, v) && |f.values| == |f.valuesBySlot|
    requires forall u :: u in f.slots ==> f.slots[u] < |f.values|
    requires forall s :: s in f.bindings ==> s < |f.values|
    requires g[v].storageValue == v && ActiveProducer(g, m, v).None? ==> v in m
    requires ActiveProducer(g, m, v).Some? ==> v !in m
    requires ActiveProducer(g, m, v).Some? ==>
               ComputedBefore(Complete(g, m, f, v).computations, |Complete(g, m, f, v).computations|, |f.values|)
    ensures Describes(g, m, Complete(g, m, f, v), |f.values|)
  {
    hide SlotsOf, ComputedBefore;
  }

  lemma LowersNew<A>(g: Graph, m: Materials<A>, f: Formed<A>, v: Value)
    requires v in g && Ready(g, m, f, v) && Lowered(g, m, f) && ActiveProducer(g, m, v).Some?
    ensures Lowers(g, m, Complete(g, m, f, v), |f.computations|)
  {
    hide Describes;
  }

  /** Giving the next slot to a value whose inputs all have theirs keeps everything lowered. */
  lemma CompleteLowered<A>(g: Graph, m: Materials<A>, rank: Value -> nat, f: Formed<A>, v: Value)
    requires Admitted(g, m, rank) && Lowered(g, m, f) && v in g && Ready(g, m, f, v)
    ensures Lowered(g, m, Complete(g, m, f, v))
  {
    hide Describes, Lowers, Complete, Ready, ActiveProducer, Extends;
    var f' := Complete(g, m, f, v);
    CompleteExtends(g, m, f, v);
    DescribesNew(g, m, rank, f, v);
    if ActiveProducer(g, m, v).Some? {
      LowersNew(g, m, f, v);
    }
    CompleteShape(g, m, f, v);
    forall s | 0 <= s < |f.values| ensures Describes(g, m, f', s) {
      assert Describes(g, m, f, s);
      DescribesKept(g, m, f, f', s);
    }
    forall k | 0 <= k < |f.computations| ensures Lowers(g, m, f', k) {
      assert Lowers(g, m, f, k);
      LowersKept(g, m, f, f', k);
    }
  }

  lemma CompleteShape<A>(g: Graph, m: Materials<A>, f: Formed<A>, v: Value)
    requires v in g && Ready(g, m, f, v) && Lowered(g, m, f)
    ensures var f' := Complete(g, m, f, v);
            && |f'.values| == |f'.valuesBySlot| == |f.values| + 1 && |f'.newlyComputed| == |f'.computations|
            && |f'.computations| == |f.computations| + (if ActiveProducer(g, m, v).Some? then 1 else 0)
            && f'.slots.Keys == f.slots.Keys + {v}
            && (forall u :: u in f'.slots ==> f'.slots[u] < |f'.values| && f'.valuesBySlot[f'.slots[u]] == u)
            && (forall s :: s in f'.bindings ==> s < |f'.values|)
            && (forall j, k :: 0 <= j < k < |f'.computations| ==> f'.computations[j].output < f'.computations[k].output)
  {
    forall k | 0 <= k < |f.computations| ensures f.computations[k].output < |f.values| {
      assert Lowers(g, m, f, k);
    }
    hide Describes, Lowers, ActiveProducer, SlotsOf;
  }

  function InputsOf(producer: Option<Producer>): seq<Value> { if producer.Some? then producer.value.inputs else [] }

  /** A frame on the stack: its first inputs have slots, except for one still on the stack above it. */
  ghost predicate Stacked<A>(g: Graph, m: Materials<A>, slots: map<Value, Slot>, frames: seq<Frame<A>>, i: nat)
    requires i < |frames|
  {
    var frame := frames[i];
    && frame.value in g && frame.value !in slots && frame.producer == ActiveProducer(g, m, frame.value)
    && frame.material == (if frame.value in m then Some(m[frame.value]) else None)
    && frame.nextInput <= |InputsOf(frame.producer)|
    && forall j :: 0 <= j < frame.nextInput ==>
         InputsOf(frame.producer)[j] in slots
         || (i + 1 < |frames| && frames[i + 1].value == InputsOf(frame.producer)[j])
  }

  ghost predicate Stack<A>(g: Graph, m: Materials<A>, rank: Value -> nat, slots: map<Value, Slot>,
                           frames: seq<Frame<A>>) {
    && (forall i :: 0 <= i < |frames| ==> Stacked(g, m, slots, frames, i))
    && (forall i, j :: 0 <= i < j < |frames| ==> rank(frames[j].value) < rank(frames[i].value))
  }

  lemma StackPushed<A>(g: Graph, m: Materials<A>, rank: Value -> nat, slots: map<Value, Slot>, frames: seq<Frame<A>>,
                       v: Value)
    requires Stack(g, m, rank, slots, frames) && v in g && v !in slots
    requires frames != [] ==> rank(v) < rank(frames[|frames| - 1].value)
    ensures Stack(g, m, rank, slots, frames + [FormationFrame(g, m, v)])
  {
    var more := frames + [FormationFrame(g, m, v)];
    forall i | 0 <= i < |more| ensures Stacked(g, m, slots, more, i) {
      if i < |frames| {
        assert Stacked(g, m, slots, frames, i);
      }
    }
    hide Stacked;
  }

  /** The top frame moves past an input that has a slot or is about to be pushed. */
  lemma StackAdvanced<A>(g: Graph, m: Materials<A>, rank: Value -> nat, slots: map<Value, Slot>, frames: seq<Frame<A>>)
    requires Stack(g, m, rank, slots, frames) && frames != []
    requires var top := frames[|frames| - 1];
             top.nextInput < |InputsOf(top.producer)|
    ensures var top := frames[|frames| - 1];
            var input := InputsOf(top.producer)[top.nextInput];
            var more := frames[|frames| - 1 := top.(nextInput := top.nextInput + 1)];
            && (input in slots ==> Stack(g, m, rank, slots, more))
            && (input in g && input !in slots && rank(input) < rank(top.value) ==>
                  Stack(g, m, rank, slots, more + [FormationFrame(g, m, input)]))
  {
    var n := |frames| - 1;
    var top := frames[n];
    var input := InputsOf(top.producer)[top.nextInput];
    var more := frames[n := top.(nextInput := top.nextInput + 1)];
    assert Stacked(g, m, slots, frames, n);
    if input in slots {
      forall i | 0 <= i < |more| ensures Stacked(g, m, slots, more, i) {
        assert Stacked(g, m, slots, frames, i);
      }
    } else if input in g && rank(input) < rank(top.value) {
      var pushed := more + [FormationFrame(g, m, input)];
      forall i | 0 <= i < |pushed| ensures Stacked(g, m, slots, pushed, i) {
        if i < n {
          assert Stacked(g, m, slots, frames, i);
        }
      }
    }
  }

  lemma StackPopped<A>(g: Graph, m: Materials<A>, rank: Value -> nat, slots: map<Value, Slot>, frames: seq<Frame<A>>,
                       slot: Slot)
    requires Stack(g, m, rank, slots, frames) && frames != []
    ensures Stack(g, m, rank, slots[frames[|frames| - 1].value := slot], frames[..|frames| - 1])
  {
    var n := |frames| - 1;
    var slots' := slots[frames[n].value := slot];
    var less := frames[..n];
    forall i | 0 <= i < |less| ensures Stacked(g, m, slots', less, i) {
      assert Stacked(g, m, slots, frames, i);
      assert rank(frames[n].value) < rank(frames[i].value);
    }
  }

  /** The top frame has nothing left to wait for. */
  lemma TopReady<A>(g: Graph, m: Materials<A>, rank: Value -> nat, f: Formed<A>, frames: seq<Frame<A>>)
    requires Stack(g, m, rank, f.slots, frames) && frames != []
    requires var top := frames[|frames| - 1];
             && top.nextInput == |InputsOf(top.producer)|
             && (top.value in g && g[top.value].storageValue != top.value ==> g[top.value].storageValue in f.slots)
    ensures frames[|frames| - 1].value in g && Ready(g, m, f, frames[|frames| - 1].value)
  {
    assert Stacked(g, m, f.slots, frames, |frames| - 1);
  }

  lemma TopAdmitted<A>(g: Graph, m: Materials<A>, rank: Value -> nat, slots: map<Value, Slot>, frames: seq<Frame<A>>)
    requires Admitted(g, m, rank) && Stack(g, m, rank, slots, frames) && frames != []
    ensures var top := frames[|frames| - 1];
            && top.value in g && top.value !in slots && g[top.value].storageValue in g
            && top.producer == ActiveProducer(g, m, top.value)
            && top.nextInput <= |InputsOf(top.producer)|
            && (g[top.value].storageValue != top.value ==> rank(g[top.value].storageValue) < rank(top.value))
            && forall i :: 0 <= i < |InputsOf(top.producer)| ==>
                 InputsOf(top.producer)[i] in g && rank(InputsOf(top.producer)[i]) < rank(top.value)
  {
    var top := frames[|frames| - 1];
    assert Stacked(g, m, slots, frames, |frames| - 1);
    assert AdmittedValue(g, m, rank, top.value);
  }

  function Empty<A>(): Formed<A> { Formed(map[], [], [], map[], [], []) }

  function TopRank<A>(rank: Value -> nat, frames: seq<Frame<A>>): nat {
    if frames == [] then 0 else rank(frames[|frames| - 1].value)
  }

  function TopRemaining<A>(frames: seq<Frame<A>>): int {
    if frames == [] then 0
    else |InputsOf(frames[|frames| - 1].producer)| - frames[|frames| - 1].nextInput
  }

  lemma EmptyStack<A>(g: Graph, m: Materials<A>, rank: Value -> nat, root: Value)
    requires Admitted(g, m, rank) && root in g
    ensures Lowered(g, m, Empty<A>()) && Stack(g, m, rank, map[], [FormationFrame(g, m, root)])
  {
    StackPushed(g, m, rank, map[], [], root);
  }

  /** The three measures of progress, the first of which counts most. */
  ghost predicate Closer<A>(g: Graph, rank: Value -> nat, f: Formed<A>, frames: seq<Frame<A>>, f': Formed<A>,
                            frames': seq<Frame<A>>) {
    || |g.Keys - f'.slots.Keys| < |g.Keys - f.slots.Keys|
    || (f'.slots == f.slots && TopRank(rank, frames') < TopRank(rank, frames))
    || (f'.slots == f.slots && TopRank(rank, frames') == TopRank(rank, frames)
        && 0 <= TopRemaining(frames') < TopRemaining(frames))
  }

  lemma PushedCloser<A>(g: Graph, rank: Value -> nat, f: Formed<A>, frames: seq<Frame<A>>, frames': seq<Frame<A>>,
                        top: Frame<A>)
    requires frames != [] && rank(top.value) < rank(frames[|frames| - 1].value)
    ensures Closer(g, rank, f, frames, f, frames' + [top])
  {
  }

  lemma AdvancedCloser<A>(g: Graph, rank: Value -> nat, f: Formed<A>, frames: seq<Frame<A>>)
    requires frames != []
    requires frames[|frames| - 1].nextInput < |InputsOf(frames[|frames| - 1].producer)|
    ensures var top := frames[|frames| - 1];
            Closer(g, rank, f, frames, f, frames[|frames| - 1 := top.(nextInput := top.nextInput + 1)])
  {
  }

  lemma CompletedCloser<A>(g: Graph, m: Materials<A>, rank: Value -> nat, f: Formed<A>, v: Value, frames: seq<Frame<A>>,
                        frames': seq<Frame<A>>)
    requires v in g && Ready(g, m, f, v)
    ensures Closer(g, rank, f, frames, Complete(g, m, f, v), frames')
    ensures Complete(g, m, f, v).slots == f.slots[v := |f.values|]
  {
    assert v !in f.slots;
    CompleteSlots(g, m, f, v);
    hide *;
    FewerLeft(g.Keys, f.slots.Keys, Complete(g, m, f, v).slots.Keys, v);
    CloserByCount(g, rank, f, frames, Complete(g, m, f, v), frames');
  }

  lemma CloserByCount<A>(g: Graph, rank: Value -> nat, f: Formed<A>, frames: seq<Frame<A>>, f': Formed<A>,
                         frames': seq<Frame<A>>)
    requires |g.Keys - f'.slots.Keys| < |g.Keys - f.slots.Keys|
    ensures Closer(g, rank, f, frames, f', frames')
  {
  }

  lemma CompleteSlots<A>(g: Graph, m: Materials<A>, f: Formed<A>, v: Value)
    requires v in g && Ready(g, m, f, v)
    ensures Complete(g, m, f, v).slots == f.slots[v := |f.values|]
  {
    hide ActiveProducer, SlotsOf;
  }

  lemma FewerLeft(all: set<Value>, done: set<Value>, done': set<Value>, v: Value)
    requires v in all && v !in done && done' == done + {v}
    ensures |all - done'| < |all - done|
  {
    assert all - done == (all - done') + {v};
  }

  /** The demanded value, its storage, or something further down than that. */
  predicate Beneath(g: Graph, rank: Value -> nat, root: Value, v: Value)
    requires root in g
  {
    v == root || v == g[root].storageValue || rank(v) < rank(g[root].storageValue)
  }

  /** Nothing is formed but what the demanded value depends on. */
  ghost predicate Within<A>(g: Graph, rank: Value -> nat, root: Value, slots: map<Value, Slot>, frames: seq<Frame<A>>)
    requires root in g
  {
    && (forall v :: v in slots ==> Beneath(g, rank, root, v))
    && (forall i :: 0 <= i < |frames| ==> Beneath(g, rank, root, frames[i].value))
  }

  lemma WithinMore<A>(g: Graph, rank: Value -> nat, root: Value, slots: map<Value, Slot>, frames: seq<Frame<A>>,
                      frames': seq<Frame<A>>, v: Value, next: Frame<A>)
    requires root in g && Within(g, rank, root, slots, frames) && frames != [] && v == frames[|frames| - 1].value
    requires |frames'| == |frames| && forall i :: 0 <= i < |frames| ==> frames'[i].value == frames[i].value
    requires rank(next.value) < rank(v)
    requires v == root && g[root].storageValue != root ==> next.value == g[root].storageValue
    ensures Within(g, rank, root, slots, frames') && Within(g, rank, root, slots, frames' + [next])
  {
    assert Beneath(g, rank, root, frames[|frames| - 1].value);
    forall i | 0 <= i < |frames'| ensures Beneath(g, rank, root, frames'[i].value) {
      assert Beneath(g, rank, root, frames[i].value);
    }
  }

  lemma WithinLess<A>(g: Graph, rank: Value -> nat, root: Value, slots: map<Value, Slot>, frames: seq<Frame<A>>,
                      slot: Slot)
    requires root in g && Within(g, rank, root, slots, frames) && frames != []
    ensures Within(g, rank, root, slots[frames[|frames| - 1].value := slot], frames[..|frames| - 1])
  {
    hide Beneath;
  }

  lemma WithinStart<A>(g: Graph, rank: Value -> nat, root: Value, frame: Frame<A>)
    requires root in g && frame.value == root
    ensures Within(g, rank, root, map[], [frame])
  {
  }

  lemma WithinEnd<A>(g: Graph, rank: Value -> nat, root: Value, slots: map<Value, Slot>, frames: seq<Frame<A>>)
    requires root in g && Within(g, rank, root, slots, frames)
    ensures forall v :: v in slots ==> Beneath(g, rank, root, v)
  {
  }

  lemma AliasHasNoProducer<A>(g: Graph, m: Materials<A>, v: Value)
    requires v in g && ActiveProducer(g, m, v).Some?
    ensures g[v].storageValue == v
  {
  }

  /** One turn of the traversal. */
  method Turn<A>(g: Graph, m: Materials<A>, ghost rank: Value -> nat, ghost root: Value, f: Formed<A>,
                 frames: seq<Frame<A>>)
    returns (f': Formed<A>, frames': seq<Frame<A>>)
    requires Admitted(g, m, rank) && Lowered(g, m, f) && Stack(g, m, rank, f.slots, frames) && frames != []
    requires root in g && Within(g, rank, root, f.slots, frames)
    ensures Lowered(g, m, f') && Stack(g, m, rank, f'.slots, frames') && Closer(g, rank, f, frames, f', frames')
    ensures Within(g, rank, root, f'.slots, frames')
    ensures f.slots.Keys <= f'.slots.Keys
    ensures frames[0].value in f'.slots || (frames' != [] && frames'[0].value == frames[0].value)
  {
    hide Admitted, Lowered, Stack, Closer, Complete, Ready, ActiveProducer, FormationFrame, Within;
    f', frames' := f, frames;
    TopAdmitted(g, m, rank, f.slots, frames);
    var n := |frames| - 1;
    var frame := frames[n];
    var value, producer := frame.value, frame.producer;
    if g[value].storageValue != value && g[value].storageValue !in f.slots {
      var storage := FormationFrame(g, m, g[value].storageValue);
      FrameValue(g, m, g[value].storageValue);
      StackPushed(g, m, rank, f.slots, frames, g[value].storageValue);
      PushedCloser(g, rank, f, frames, frames, storage);
      WithinMore(g, rank, root, f.slots, frames, frames, value, storage);
      frames' := frames + [storage];
    } else if producer.Some? && frame.nextInput < |producer.value.inputs| {
      var input := producer.value.inputs[frame.nextInput];
      StackAdvanced(g, m, rank, f.slots, frames);
      AdvancedCloser(g, rank, f, frames);
      frames' := frames[n := frame.(nextInput := frame.nextInput + 1)];
      AliasHasNoProducer(g, m, value);
      FrameValue(g, m, input);
      WithinMore(g, rank, root, f.slots, frames, frames', value, FormationFrame(g, m, input));
      if input !in f.slots {
        var next := FormationFrame(g, m, input);
        PushedCloser(g, rank, f, frames, frames', next);
        frames' := frames' + [next];
      }
    } else {
      TopReady(g, m, rank, f, frames);
      CompleteLowered(g, m, rank, f, value);
      CompletedCloser(g, m, rank, f, value, frames, frames[..n]);
      StackPopped(g, m, rank, f.slots, frames, |f.values|);
      WithinLess(g, rank, root, f.slots, frames, |f.values|);
      f' := Complete(g, m, f, value);
      frames' := frames[..n];
    }
  }

  lemma FrameValue<A>(g: Graph, m: Materials<A>, v: Value)
    requires v in g
    ensures FormationFrame(g, m, v).value == v
  {
  }

  /**
   * Forms the dependency closure of root. Each turn gives a value its slot, goes
   * down to a value of lower rank, or passes an input of the top frame.
   */
  method FormExecutableProgram<A>(g: Graph, m: Materials<A>, root: Value,
                                  ghost rank: Value -> nat) returns (f: Formed<A>)
    requires Admitted(g, m, rank) && root in g
    ensures Lowered(g, m, f) && root in f.slots
    ensures forall v :: v in f.slots ==> Beneath(g, rank, root, v)
  {
    EmptyStack(g, m, rank, root);
    FrameValue(g, m, root);
    hide Admitted, Lowered, Stack, FormationFrame, Beneath, Within, InputsOf;
    f := Empty();
    var frames := [FormationFrame(g, m, root)];
    WithinStart(g, rank, root, frames[0]);
    while frames != []
      invariant Lowered(g, m, f) && Stack(g, m, rank, f.slots, frames)
      invariant root in f.slots || (frames != [] && frames[0].value == root)
      invariant Within(g, rank, root, f.slots, frames)
      decreases |g.Keys - f.slots.Keys|, TopRank(rank, frames), TopRemaining(frames)
    {
      f, frames := Turn(g, m, rank, root, f, frames);
    }
    WithinEnd(g, rank, root, f.slots, frames);
  }

  /** The slot and the storage slot of a formed value. */
  lemma SlotFacts<A>(g: Graph, m: Materials<A>, rank: Value -> nat, f: Formed<A>, v: Value)
    requires Admitted(g, m, rank) && Lowered(g, m, f) && v in f.slots
    ensures v in g && f.slots[v] < |f.values|
    ensures var p := f.values[f.slots[v]];
            && p.shape == g[v].shape && g[v].storageValue in f.slots && p.storageSlot == f.slots[g[v].storageValue]
            && p.storageSlot <= f.slots[v] && p.source == SourceOf(g, m, v) && p.slot == f.slots[v]
            && (p.source.Computed? ==> ComputedBefore(f.computations, |f.computations|, f.slots[v]))
  {
    assert Describes(g, m, f, f.slots[v]);
  }

  /** Formation only makes programs in which every operand is ready when it is used. */
  lemma FormedWellFormed<A>(g: Graph, m: Materials<A>, rank: Value -> nat, f: Formed<A>)
    requires Admitted(g, m, rank) && Lowered(g, m, f)
    ensures WellFormed(f.values, f.computations)
  {
    forall s | 0 <= s < |f.values|
      ensures ProperValue(f.values, s)
      ensures f.values[s].source.Computed? ==> ComputedBefore(f.computations, |f.computations|, s)
    {
      assert Describes(g, m, f, s);
      FormedValue(g, m, rank, f, f.valuesBySlot[s]);
    }
    forall k | 0 <= k < |f.computations| ensures ProperComputation(f.values, f.computations[k]) {
      assert Lowers(g, m, f, k);
      FormedComputation(g, m, rank, f, k);
    }
    hide Describes, Lowers, ProperValue, ProperComputation, ComputedBefore;
  }

  lemma FormedValue<A>(g: Graph, m: Materials<A>, rank: Value -> nat, f: Formed<A>, v: Value)
    requires Admitted(g, m, rank) && Lowered(g, m, f) && v in f.slots
    ensures f.slots[v] < |f.values| && ProperValue(f.values, f.slots[v])
  {
    SlotFacts(g, m, rank, f, v);
    var root := g[v].storageValue;
    SlotFacts(g, m, rank, f, root);
    assert AdmittedValue(g, m, rank, v);
    assert f.valuesBySlot[f.slots[v]] == v && f.valuesBySlot[f.slots[root]] == root;
    hide Describes, Lowers, ComputedBefore, ActiveProducer;
  }

  lemma FormedComputation<A>(g: Graph, m: Materials<A>, rank: Value -> nat, f: Formed<A>, k: nat)
    requires Admitted(g, m, rank) && Lowered(g, m, f) && k < |f.computations|
    ensures ProperComputation(f.values, f.computations[k])
  {
    var c := f.computations[k];
    assert Lowers(g, m, f, k) && Describes(g, m, f, c.output);
    hide ComputedBefore;
  }

  /** The contents bound to the slots of a formed program. */
  function InitialContents<A>(f: Formed<A>, read: A -> Bytes): Environment {
    map s | s in f.bindings :: ContentOf(f.bindings[s], read)
  }

  /** A storage root known after k computations. */
  predicate Known<A>(f: Formed<A>, k: nat, v: Value)
  {
    v in f.slots && f.slots[v] < |f.values| && f.values[f.slots[v]].storageSlot == f.slots[v]
    && (f.values[f.slots[v]].source.Binding? || ComputedBefore(f.computations, k, f.slots[v]))
  }

  lemma OutputsInside<A>(g: Graph, m: Materials<A>, f: Formed<A>)
    requires Lowered(g, m, f)
    ensures forall j :: 0 <= j < |f.computations| ==> f.computations[j].output < |f.values|
  {
    forall j | 0 <= j < |f.computations| ensures f.computations[j].output < |f.values| {
      assert Lowers(g, m, f, j);
    }
  }

  /** After k computations every known storage root holds the recursive meaning of its value. */
  lemma {:induction false} MeaningPreserved<A>(g: Graph, m: Materials<A>, rank: Value -> nat, apply: Semantics,
                                            read: A -> Bytes, f: Formed<A>, k: nat, v: Value)
    requires Admitted(g, m, rank) && Lowered(g, m, f) && k <= |f.computations| && v in g && Known(f, k, v)
    ensures forall j :: 0 <= j < |f.computations| ==> f.computations[j].output < |f.values|
    ensures Contents(Evaluate(apply, f.values, f.computations, InitialContents(f, read), k), f.slots[v])
         == Meaning(g, m, rank, apply, read, v)
    decreases k, 0
  {
    OutputsInside(g, m, f);
    SlotFacts(g, m, rank, f, v);
    if k == 0 {
      BindingMeaning(g, m, rank, apply, read, f, v);
    } else if f.computations[k - 1].output == f.slots[v] {
      ComputedMeaning(g, m, rank, apply, read, f, k - 1, v);
    } else {
      StillKnown(f, k, v);
      MeaningPreserved(g, m, rank, apply, read, f, k - 1, v);
      hide Meaning, Lowered, Admitted, InitialContents;
    }
  }

  lemma StillKnown<A>(f: Formed<A>, k: nat, v: Value)
    requires 0 < k <= |f.computations| && Known(f, k, v) && f.computations[k - 1].output != f.slots[v]
    ensures Known(f, k - 1, v)
  {
    if !f.values[f.slots[v]].source.Binding? {
      var j :| 0 <= j < k && j < |f.computations| && f.computations[j].output == f.slots[v];
      assert j < k - 1;
    }
  }

  lemma BindingMeaning<A>(g: Graph, m: Materials<A>, rank: Value -> nat, apply: Semantics, read: A -> Bytes,
                       f: Formed<A>, v: Value)
    requires Admitted(g, m, rank) && Lowered(g, m, f) && v in g && Known(f, 0, v)
    ensures Contents(InitialContents(f, read), f.slots[v]) == Meaning(g, m, rank, apply, read, v)
  {
    SlotFacts(g, m, rank, f, v);
    assert Describes(g, m, f, f.slots[v]);
    assert AdmittedValue(g, m, rank, v);
    assert f.valuesBySlot[f.slots[v]] == v;
    assert g[v].storageValue == v;
  }

  lemma ComputedMeaning<A>(g: Graph, m: Materials<A>, rank: Value -> nat, apply: Semantics, read: A -> Bytes,
                        f: Formed<A>, k: nat, v: Value)
    requires Admitted(g, m, rank) && Lowered(g, m, f) && k < |f.computations| && v in g && v in f.slots
    requires f.computations[k].output == f.slots[v]
    requires forall j :: 0 <= j < |f.computations| ==> f.computations[j].output < |f.values|
    ensures Contents(Evaluate(apply, f.values, f.computations, InitialContents(f, read), k + 1), f.slots[v])
         == Meaning(g, m, rank, apply, read, v)
    decreases k, 3
  {
    assert Lowers(g, m, f, k);
    assert AdmittedValue(g, m, rank, v);
    assert f.valuesBySlot[f.slots[v]] == v;
    SlotFacts(g, m, rank, f, v);
    var producer := ActiveProducer(g, m, v).value;
    OperandsMeaning(g, m, rank, apply, read, f, k, v);
    hide Lowered, Admitted, InitialContents, Lowers, Operands, Inputs;
  }

  lemma OperandsMeaning<A>(g: Graph, m: Materials<A>, rank: Value -> nat, apply: Semantics, read: A -> Bytes,
                        f: Formed<A>, k: nat, v: Value)
    requires Admitted(g, m, rank) && Lowered(g, m, f) && k < |f.computations| && v in g && v in f.slots
    requires f.computations[k].output == f.slots[v] && ActiveProducer(g, m, v).Some?
    requires forall j :: 0 <= j < |f.computations| ==> f.computations[j].output < |f.values|
    requires forall i :: 0 <= i < |ActiveProducer(g, m, v).value.inputs| ==>
               ActiveProducer(g, m, v).value.inputs[i] in g && rank(ActiveProducer(g, m, v).value.inputs[i]) < rank(v)
    ensures var inputs := ActiveProducer(g, m, v).value.inputs;
            Operands(f.values, Evaluate(apply, f.values, f.computations, InitialContents(f, read), k),
                     f.computations[k].inputs)
            == Inputs(g, m, rank, apply, read, v, inputs, |inputs|)
    decreases k, 2
  {
    InputSlots(g, m, f, k, v);
    hide *;
    var inputs := ActiveProducer(g, m, v).value.inputs;
    var env := Evaluate(apply, f.values, f.computations, InitialContents(f, read), k);
    var slots := f.computations[k].inputs;
    var operands := Operands(f.values, env, slots);
    var meanings := Inputs(g, m, rank, apply, read, v, inputs, |inputs|);
    OperandsAre(f.values, env, slots);
    forall i | 0 <= i < |inputs| ensures operands[i] == meanings[i] {
      OperandMeaning(g, m, rank, apply, read, f, k, inputs[i], i);
    }
  }

  lemma OperandsAre(values: seq<ProgramValue>, env: Environment, slots: seq<Slot>)
    ensures |Operands(values, env, slots)| == |slots|
    ensures forall i :: 0 <= i < |slots| ==> Operands(values, env, slots)[i] == Operand(values, env, slots[i])
  {
  }

  lemma InputSlots<A>(g: Graph, m: Materials<A>, f: Formed<A>, k: nat, v: Value)
    requires Lowered(g, m, f) && k < |f.computations| && v in g && v in f.slots
    requires f.computations[k].output == f.slots[v] && ActiveProducer(g, m, v).Some?
    ensures var inputs := ActiveProducer(g, m, v).value.inputs;
            && |f.computations[k].inputs| == |inputs|
            && forall i :: 0 <= i < |inputs| ==>
                inputs[i] in f.slots && f.computations[k].inputs[i] == f.slots[inputs[i]]
  {
    assert Lowers(g, m, f, k);
    assert f.valuesBySlot[f.slots[v]] == v;
  }

  lemma OperandMeaning<A>(g: Graph, m: Materials<A>, rank: Value -> nat, apply: Semantics, read: A -> Bytes,
                       f: Formed<A>, k: nat, u: Value, i: nat)
    requires Admitted(g, m, rank) && Lowered(g, m, f) && k < |f.computations| && u in f.slots && u in g
    requires i < |f.computations[k].inputs| && f.computations[k].inputs[i] == f.slots[u]
    requires forall j :: 0 <= j < |f.computations| ==> f.computations[j].output < |f.values|
    ensures Operand(f.values, Evaluate(apply, f.values, f.computations, InitialContents(f, read), k), f.slots[u])
         == Tensor(g[u].shape, Meaning(g, m, rank, apply, read, u))
    decreases k, 1
  {
    FormedWellFormed(g, m, rank, f);
    OperandKnown(f.values, f.computations, k, i);
    SlotFacts(g, m, rank, f, u);
    assert AdmittedValue(g, m, rank, u);
    var root := g[u].storageValue;
    SlotFacts(g, m, rank, f, root);
    MeaningPreserved(g, m, rank, apply, read, f, k, root);
    hide Lowered, Admitted, InitialContents, Evaluate, ComputedBefore;
  }

  /** Running a formed program gives every formed value, aliases included, its recursive meaning. */
  lemma FormedMeaning<A>(g: Graph, m: Materials<A>, rank: Value -> nat, apply: Semantics, read: A -> Bytes,
                      f: Formed<A>, v: Value)
    requires Admitted(g, m, rank) && Lowered(g, m, f) && v in f.slots && v in g
    ensures forall j :: 0 <= j < |f.computations| ==> f.computations[j].output < |f.values|
    ensures Operand(f.values, Evaluate(apply, f.values, f.computations, InitialContents(f, read), |f.computations|),
                    f.slots[v])
         == Tensor(g[v].shape, Meaning(g, m, rank, apply, read, v))
  {
    OutputsInside(g, m, f);
    SlotFacts(g, m, rank, f, v);
    assert AdmittedValue(g, m, rank, v);
    var root := g[v].storageValue;
    SlotFacts(g, m, rank, f, root);
    MeaningPreserved(g, m, rank, apply, read, f, |f.computations|, root);
    hide Lowered, Admitted, InitialContents, Evaluate, ComputedBefore;
  }
}
