/**
 * The state of one CPU invocation, on values: which storage slots hold an
 * allocation, what the memory holds for them, and what was there before.
 */
module InvocationState {
  import opened Programs
  import opened LinearMemory
  import opened InvocationUses
  import opened ProgramFormation

  /** The bytes of an allocation. */
  function Read(bytes: seq<int>, al: Allocation): Bytes {
    if al.byteLength > 0 && al.offset + al.byteLength <= |bytes| then bytes[al.offset..al.offset + al.byteLength]
    else []
  }

  function Write(bytes: seq<int>, offset: nat, data: Bytes): seq<int>
    requires data != [] ==> offset + |data| <= |bytes|
  {
    if data == [] then bytes else bytes[..offset] + data + bytes[offset + |data|..]
  }

  predicate InMemory(bytes: seq<int>, al: Allocation) {
    al.byteLength > 0 ==> al.offset + al.byteLength <= |bytes|
  }

  lemma ReadWritten(bytes: seq<int>, al: Allocation, data: Bytes)
    requires |data| == al.byteLength && InMemory(bytes, al)
    ensures |Write(bytes, al.offset, data)| == |bytes| && Read(Write(bytes, al.offset, data), al) == data
  {
    if data != [] {
      var w := Write(bytes, al.offset, data);
      assert w[al.offset..al.offset + |data|] == data;
    }
  }

  predicate Apart(al: Allocation, other: Allocation) {
    al.byteLength > 0 && other.byteLength > 0 ==>
      al.offset + al.byteLength <= other.offset || other.offset + other.byteLength <= al.offset
  }

  lemma ReadElsewhere(bytes: seq<int>, al: Allocation, data: Bytes, other: Allocation)
    requires |data| == al.byteLength && InMemory(bytes, al) && InMemory(bytes, other) && Apart(al, other)
    ensures Read(Write(bytes, al.offset, data), other) == Read(bytes, other)
  {
    if data != [] && other.byteLength > 0 {
      var w := Write(bytes, al.offset, data);
      var o, n := other.offset, other.byteLength;
      var a, b := w[o..o + n], bytes[o..o + n];
      forall i | 0 <= i < n ensures a[i] == b[i] {
      }
    }
  }

  lemma ReadGrown(bytes: seq<int>, bytes': seq<int>, al: Allocation)
    requires bytes <= bytes' && InMemory(bytes, al)
    ensures InMemory(bytes', al) && Read(bytes', al) == Read(bytes, al)
  {
  }

  /** Different live allocations never share a byte. */
  lemma LiveApart(base: nat, cursor: nat, free: seq<Segment>, live: map<nat, Allocation>, i: nat, j: nat)
    requires Partition(base, cursor, free, live) && i in live && j in live && i != j
    requires live[i].byteLength <= live[i].reserved && live[j].byteLength <= live[j].reserved
    ensures Apart(live[i], live[j])
  {
    var a, b := live[i], live[j];
    var x := if a.offset >= b.offset then a.offset else b.offset;
    assert !(Owns(a, x) && Owns(b, x));
    hide InFree, InLive;
  }

  /** Everything about an invocation that stays the same while it runs. */
  datatype Invocation = Invocation(
    values: seq<ProgramValue>, computations: seq<Computation>, bindings: map<Slot, Materialization<Allocation>>,
    retained: seq<bool>, before: map<nat, Allocation>, next: nat, memory: seq<int>)

  predicate Borrowed(x: Invocation, s: Slot) { s in x.bindings && x.bindings[s].Resident? }

  predicate Protected(x: Invocation, s: Slot) { (s < |x.retained| && x.retained[s]) || Borrowed(x, s) }

  /** An allocation that this invocation made for a slot. */
  predicate Own(x: Invocation, held: map<Slot, Allocation>, id: nat) {
    exists s :: s in held && !Borrowed(x, s) && held[s].id == id
  }

  /** The slot s holds a live allocation with the contents that its computation or binding gave it. */
  predicate Holding(x: Invocation, env: Environment, held: map<Slot, Allocation>, live: map<nat, Allocation>,
                    bytes: seq<int>, s: Slot)
    requires s in held
  {
    var al := held[s];
    && s in env && s < |x.values|
    && al.id in live && live[al.id] == al && al.byteLength == ByteLength(x.values[s].shape)
    && Read(bytes, al) == env[s]
    && (if Borrowed(x, s) then al == x.bindings[s].allocation && al.id in x.before else al.id !in x.before)
  }

  /** The memory that was live before is untouched, and everything new belongs to a slot. */
  ghost predicate Isolated(x: Invocation, held: map<Slot, Allocation>, live: map<nat, Allocation>, bytes: seq<int>) {
    && (forall id :: id in x.before ==> id in live && live[id] == x.before[id])
    && (forall id :: id in x.before ==> Read(bytes, x.before[id]) == Read(x.memory, x.before[id]))
    && (forall id :: id in live ==> id in x.before || (id >= x.next && Own(x, held, id)))
    && (forall s, t :: s in held && t in held && !Borrowed(x, s) && !Borrowed(x, t) && held[s].id == held[t].id ==>
          s == t)
  }

  ghost predicate State(x: Invocation, env: Environment, held: map<Slot, Allocation>, live: map<nat, Allocation>,
                        bytes: seq<int>)
  {
    && (forall s :: s in held ==> Holding(x, env, held, live, bytes, s))
    && Isolated(x, held, live, bytes)
  }

  /** The remaining uses of a slot, after k computations but for some inputs still pending. */
  predicate Counted(x: Invocation, k: nat, pending: seq<Slot>, remaining: seq<int>, s: Slot)
    requires k <= |x.computations| && s < |remaining|
  {
    remaining[s] == if Protected(x, s) then -1
                    else Uses(x.values, pending, s) + UsesFrom(x.values, x.computations, k, s)
  }

  /** A known slot keeps its allocation exactly as long as it has uses left, or was never to be released. */
  predicate Kept(x: Invocation, env: Environment, held: map<Slot, Allocation>, remaining: seq<int>, s: Slot)
    requires s < |remaining|
  {
    s in env ==>
      (s in held <==> Protected(x, s) || remaining[s] > 0 || UsesFrom(x.values, x.computations, 0, s) == 0)
  }

  ghost predicate Counts(x: Invocation, k: nat, pending: seq<Slot>, env: Environment, held: map<Slot, Allocation>,
                         remaining: seq<int>)
  {
    && k <= |x.computations| && |remaining| == |x.values|
    && (forall s :: 0 <= s < |remaining| ==> Counted(x, k, pending, remaining, s) && Kept(x, env, held, remaining, s))
  }

  /** Putting a new allocation under a slot that had none. */
  lemma StateAdded(x: Invocation, env: Environment, held: map<Slot, Allocation>, live: map<nat, Allocation>,
                   bytes: seq<int>, bytes': seq<int>, s: Slot, al: Allocation, data: Bytes)
    requires State(x, env, held, live, bytes) && bytes <= bytes'
    requires s !in held && !Borrowed(x, s) && s < |x.values| && al.id !in live && al.id >= x.next
    requires al.byteLength == |data| == ByteLength(x.values[s].shape) && InMemory(bytes', al)
    requires forall id :: id in live ==> InMemory(bytes, live[id]) && Apart(al, live[id])
    ensures State(x, env[s := data], held[s := al], live[al.id := al], Write(bytes', al.offset, data))
  {
    var w := Write(bytes', al.offset, data);
    ReadWritten(bytes', al, data);
    forall id | id in live ensures Read(w, live[id]) == Read(bytes, live[id]) {
      ReadGrown(bytes, bytes', live[id]);
      ReadElsewhere(bytes', al, data, live[id]);
    }
    hide Read, Write, InMemory, Apart, ByteLength;
    var held', live' := held[s := al], live[al.id := al];
    forall t | t in held' ensures Holding(x, env[s := data], held', live', w, t) {
      if t != s {
        assert Holding(x, env, held, live, bytes, t);
      }
    }
    IsolatedAdded(x, held, live, bytes, w, s, al);
  }

  lemma IsolatedAdded(x: Invocation, held: map<Slot, Allocation>, live: map<nat, Allocation>, bytes: seq<int>,
                      w: seq<int>, s: Slot, al: Allocation)
    requires Isolated(x, held, live, bytes) && s !in held && !Borrowed(x, s) && al.id !in live && al.id >= x.next
    requires forall id :: id in live ==> Read(w, live[id]) == Read(bytes, live[id])
    requires forall t :: t in held ==> held[t].id in live
    ensures Isolated(x, held[s := al], live[al.id := al], w)
  {
    var held', live' := held[s := al], live[al.id := al];
    forall id | id in live' ensures id in x.before || (id >= x.next && Own(x, held', id)) {
      if id == al.id {
        assert s in held' && held'[s].id == id;
      } else if id !in x.before {
        var t :| t in held && !Borrowed(x, t) && held[t].id == id;
        assert t in held' && held'[t] == held[t];
      }
    }
    hide Read;
  }

  /** A resident binding is borrowed as it is. */
  lemma StateBorrowed(x: Invocation, env: Environment, held: map<Slot, Allocation>, live: map<nat, Allocation>,
                      bytes: seq<int>, s: Slot)
    requires State(x, env, held, live, bytes) && s !in held && Borrowed(x, s) && s < |x.values|
    requires var al := x.bindings[s].allocation;
             && al.id in x.before && x.before[al.id] == al && al.byteLength == ByteLength(x.values[s].shape)
    ensures var al := x.bindings[s].allocation;
            State(x, env[s := Read(x.memory, al)], held[s := al], live, bytes)
  {
    hide Read, ByteLength;
    var al := x.bindings[s].allocation;
    var held' := held[s := al];
    forall t | t in held' ensures Holding(x, env[s := Read(x.memory, al)], held', live, bytes, t) {
      if t != s {
        assert Holding(x, env, held, live, bytes, t);
      }
    }
    forall id | id in live ensures id in x.before || (id >= x.next && Own(x, held', id)) {
      if id !in x.before {
        var t :| t in held && !Borrowed(x, t) && held[t].id == id;
        assert t in held' && held'[t] == held[t];
      }
    }
  }

  /** Releasing the allocation of a slot of our own. */
  lemma StateReleased(x: Invocation, env: Environment, held: map<Slot, Allocation>, live: map<nat, Allocation>,
                      bytes: seq<int>, s: Slot)
    requires State(x, env, held, live, bytes) && s in held && !Borrowed(x, s)
    ensures State(x, env, held - {s}, live - {held[s].id}, bytes)
  {
    hide Read, ByteLength;
    var held', live' := held - {s}, live - {held[s].id};
    assert Holding(x, env, held, live, bytes, s);
    forall t | t in held' ensures Holding(x, env, held', live', bytes, t) {
      assert Holding(x, env, held, live, bytes, t);
    }
    forall id | id in live' ensures id in x.before || (id >= x.next && Own(x, held', id)) {
      if id !in x.before {
        var t :| t in held && !Borrowed(x, t) && held[t].id == id;
        assert t in held' && held'[t] == held[t];
      }
    }
  }

  /** Without slots of our own only what was live before is live. */
  lemma NothingOwn(x: Invocation, env: Environment, held: map<Slot, Allocation>, live: map<nat, Allocation>,
                   bytes: seq<int>)
    requires State(x, env, held, live, bytes) && forall s :: s in held ==> Borrowed(x, s)
    ensures live == x.before
  {
    forall id | id in live ensures id in x.before && live[id] == x.before[id] {
    }
    hide Read;
  }

  /** A slot no longer looked at. */
  lemma StateDropped(x: Invocation, env: Environment, held: map<Slot, Allocation>, live: map<nat, Allocation>,
                     bytes: seq<int>, s: Slot)
    requires State(x, env, held, live, bytes) && s in held && Borrowed(x, s)
    ensures State(x, env, held - {s}, live, bytes)
  {
    hide Read, ByteLength;
    var held' := held - {s};
    forall t | t in held' ensures Holding(x, env, held', live, bytes, t) {
      assert Holding(x, env, held, live, bytes, t);
    }
    forall id | id in live ensures id in x.before || (id >= x.next && Own(x, held', id)) {
      if id !in x.before {
        var t :| t in held && !Borrowed(x, t) && held[t].id == id;
        assert t in held' && held'[t] == held[t];
      }
    }
  }

  lemma HeldIsLive(x: Invocation, env: Environment, held: map<Slot, Allocation>, live: map<nat, Allocation>,
                   bytes: seq<int>, s: Slot)
    requires State(x, env, held, live, bytes) && s in held
    ensures held[s].id in live && live[held[s].id] == held[s] && s in env && Read(bytes, held[s]) == env[s]
    ensures Borrowed(x, s) <==> held[s].id in x.before
    ensures Borrowed(x, s) ==> held[s] == x.bindings[s].allocation
  {
    assert Holding(x, env, held, live, bytes, s);
    hide Read, ByteLength;
  }

  /** The count of a slot once an input of storage slot is done. */
  function Decremented(x: Invocation, remaining: seq<int>, slot: Slot): seq<int>
    requires slot < |remaining|
  {
    if Protected(x, slot) then remaining else remaining[slot := remaining[slot] - 1]
  }

  /** And what is held then: the last use gives the allocation up. */
  function HeldAfter(x: Invocation, held: map<Slot, Allocation>, remaining: seq<int>, slot: Slot): map<Slot, Allocation>
    requires slot < |remaining|
  {
    if !Protected(x, slot) && remaining[slot] == 1 then held - {slot} else held
  }

  lemma CountsCompleted(x: Invocation, k: nat, input: Slot, pending: seq<Slot>, env: Environment,
                        held: map<Slot, Allocation>, remaining: seq<int>, slot: Slot)
    requires Counts(x, k, [input] + pending, env, held, remaining) && StorageOf(x.values, input) == slot
    requires slot < |remaining| && slot in env
    requires UsesFrom(x.values, x.computations, 0, slot) > 0
    ensures Counts(x, k, pending, env, HeldAfter(x, held, remaining, slot), Decremented(x, remaining, slot))
    ensures Protected(x, slot) ==> remaining[slot] == -1
    ensures !Protected(x, slot) ==> remaining[slot] > 0 && slot in held
  {
    CompletedSlot(x, k, input, pending, env, held, remaining, slot, slot);
    var held', remaining' := HeldAfter(x, held, remaining, slot), Decremented(x, remaining, slot);
    forall s | 0 <= s < |remaining'|
      ensures Counted(x, k, pending, remaining', s) && Kept(x, env, held', remaining', s)
    {
      CompletedSlot(x, k, input, pending, env, held, remaining, slot, s);
    }
  }

  lemma CompletedSlot(x: Invocation, k: nat, input: Slot, pending: seq<Slot>, env: Environment,
                      held: map<Slot, Allocation>, remaining: seq<int>, slot: Slot, s: Slot)
    requires Counts(x, k, [input] + pending, env, held, remaining) && StorageOf(x.values, input) == slot
    requires slot < |remaining| && slot in env && s < |remaining|
    requires UsesFrom(x.values, x.computations, 0, slot) > 0
    ensures Counted(x, k, pending, Decremented(x, remaining, slot), s)
    ensures Kept(x, env, HeldAfter(x, held, remaining, slot), Decremented(x, remaining, slot), s)
    ensures s == slot && !Protected(x, slot) ==> remaining[slot] > 0 && slot in held
    ensures s == slot && Protected(x, slot) ==> remaining[slot] == -1
  {
    assert Counted(x, k, [input] + pending, remaining, s) && Kept(x, env, held, remaining, s);
    assert ([input] + pending)[1..] == pending;
    assert Uses(x.values, [input] + pending, s) == Uses(x.values, pending, s) + if slot == s then 1 else 0;
    hide UsesFrom, Uses, Borrowed;
  }

  /** The inputs of the next computation become pending. */
  lemma CountsNext(x: Invocation, k: nat, next: nat, none: seq<Slot>, env: Environment, held: map<Slot, Allocation>,
                   remaining: seq<int>, s: Slot, data: Bytes, al: Allocation)
    requires next == k + 1 && none == [] && Counts(x, k, none, env, held, remaining)
    requires k < |x.computations| && s < |x.values| && s !in env && !Borrowed(x, s)
    requires UsesFrom(x.values, x.computations, 0, s) == UsesFrom(x.values, x.computations, k, s)
    ensures Counts(x, next, x.computations[k].inputs, env[s := data], held[s := al], remaining)
  {
    var env', held' := env[s := data], held[s := al];
    var pending := x.computations[k].inputs;
    forall t: Slot | t < |remaining|
      ensures Counted(x, next, pending, remaining, t) && Kept(x, env', held', remaining, t)
    {
      assert Counted(x, k, none, remaining, t) && Kept(x, env, held, remaining, t);
      assert Uses(x.values, none, t) == 0;
    }
  }

  /** Binding a slot before anything has been used. */
  lemma CountsBound(x: Invocation, none: seq<Slot>, env: Environment, held: map<Slot, Allocation>, remaining: seq<int>,
                    s: Slot, data: Bytes, al: Allocation)
    requires none == [] && Counts(x, 0, none, env, held, remaining) && s < |x.values| && s !in env
    ensures Counts(x, 0, none, env[s := data], held[s := al], remaining)
  {
    var env', held' := env[s := data], held[s := al];
    forall t: Slot | t < |remaining|
      ensures Counted(x, 0, none, remaining, t) && Kept(x, env', held', remaining, t)
    {
      assert Counted(x, 0, none, remaining, t) && Kept(x, env, held, remaining, t);
      assert Uses(x.values, none, t) == 0;
    }
  }

  lemma WriteSame(bytes: seq<int>, al: Allocation)
    requires InMemory(bytes, al)
    ensures |Read(bytes, al)| == al.byteLength && Write(bytes, al.offset, Read(bytes, al)) == bytes
  {
  }

  /** A new allocation holds whatever its bytes were before. */
  lemma StateReserved(x: Invocation, env: Environment, held: map<Slot, Allocation>, live: map<nat, Allocation>,
                      bytes: seq<int>, bytes': seq<int>, s: Slot, al: Allocation)
    requires State(x, env, held, live, bytes) && bytes <= bytes'
    requires s !in held && !Borrowed(x, s) && s < |x.values| && al.id !in live && al.id >= x.next
    requires al.byteLength == ByteLength(x.values[s].shape) && InMemory(bytes', al)
    requires forall id :: id in live ==> InMemory(bytes, live[id]) && Apart(al, live[id])
    ensures State(x, env[s := Read(bytes', al)], held[s := al], live[al.id := al], bytes')
  {
    hide *;
    WriteSame(bytes', al);
    StateAdded(x, env, held, live, bytes, bytes', s, al, Read(bytes', al));
  }

  /** Writing the contents of a slot of our own touches nothing else. */
  lemma StateWritten(x: Invocation, env: Environment, held: map<Slot, Allocation>, live: map<nat, Allocation>,
                     bytes: seq<int>, s: Slot, data: Bytes)
    requires State(x, env, held, live, bytes) && s in held && !Borrowed(x, s) && |data| == held[s].byteLength
    requires InMemory(bytes, held[s])
    requires forall id :: id in live && id != held[s].id ==> InMemory(bytes, live[id]) && Apart(held[s], live[id])
    ensures State(x, env[s := data], held, live, Write(bytes, held[s].offset, data))
  {
    var al := held[s];
    var w := Write(bytes, al.offset, data);
    ReadWritten(bytes, al, data);
    assert Holding(x, env, held, live, bytes, s);
    forall id | id in live && id != al.id ensures Read(w, live[id]) == Read(bytes, live[id]) {
      ReadElsewhere(bytes, al, data, live[id]);
    }
    hide Read, Write, InMemory, Apart, ByteLength;
    forall t | t in held ensures Holding(x, env[s := data], held, live, w, t) {
      assert Holding(x, env, held, live, bytes, t);
      assert Borrowed(x, t) || t == s || held[t].id != al.id;
    }
  }

  lemma {:induction false} UsesLater(values: seq<ProgramValue>, computations: seq<Computation>, k: nat, s: Slot)
    requires k <= |computations|
    ensures UsesFrom(values, computations, k, s) <= UsesFrom(values, computations, 0, s)
  {
    UsesSplit(values, computations, k, s);
  }

  /** An input of some computation has a use in the whole program. */
  lemma InputUsed(values: seq<ProgramValue>, computations: seq<Computation>, k: nat, i: nat)
    requires k < |computations| && i < |computations[k].inputs|
    ensures UsesFrom(values, computations, 0, StorageOf(values, computations[k].inputs[i])) > 0
  {
    var s := StorageOf(values, computations[k].inputs[i]);
    UsesOfInput(values, computations[k].inputs, i);
    UsesLater(values, computations, k, s);
  }

  /** What a binding provides: a host payload, or what its resident allocation holds at the start. */
  function Content(x: Invocation, binding: Materialization<Allocation>): Bytes {
    match binding
    case Host(data) => data
    case Resident(allocation) => Read(x.memory, allocation)
  }

  /** The contents of the binding slots below i. */
  function BoundBelow(x: Invocation, i: nat): Environment {
    map s | s in x.bindings && s < i && s < |x.values| && x.values[s].source.Binding? :: Content(x, x.bindings[s])
  }

  lemma BoundBelowNext(x: Invocation, i: nat)
    requires i < |x.values|
    ensures x.values[i].source.Binding? && i in x.bindings ==>
              BoundBelow(x, i + 1) == BoundBelow(x, i)[i := Content(x, x.bindings[i])]
    ensures !x.values[i].source.Binding? ==> BoundBelow(x, i + 1) == BoundBelow(x, i)
    ensures i !in BoundBelow(x, i)
  {
  }

  /** Bindings that a caller may pass: for binding slots only, with payloads of their size. */
  predicate ProperBindings(x: Invocation) {
    forall s :: s in x.bindings ==>
      && s < |x.values| && x.values[s].source.Binding?
      && match x.bindings[s]
         case Host(data) => |data| == ByteLength(x.values[s].shape)
         case Resident(allocation) => allocation.byteLength == ByteLength(x.values[s].shape) && allocation.id < x.next
  }

  /** Every live allocation lies in the memory. */
  lemma LiveInMemory(base: nat, cursor: nat, free: seq<Segment>, bound: nat, live: map<nat, Allocation>, next: nat,
                     reserved: nat, payload: nat, bytes: seq<int>)
    requires Consistent(base, cursor, free, bound, live, next, reserved, payload)
    requires cursor == base || cursor <= |bytes|
    ensures forall id :: id in live ==> InMemory(bytes, live[id])
  {
    forall id | id in live ensures InMemory(bytes, live[id]) {
      var al := live[id];
      if al.byteLength > 0 {
        assert Owns(al, al.offset + al.reserved - 1) && InLive(live, al.offset + al.reserved - 1);
      }
    }
    hide Sorted, Bounded, Total, InFree;
  }

  lemma NewApart(base: nat, cursor: nat, free: seq<Segment>, live: map<nat, Allocation>, i: nat)
    requires Partition(base, cursor, free, live) && i in live
    requires forall id :: id in live ==> live[id].byteLength <= live[id].reserved
    ensures forall id :: id in live && id != i ==> Apart(live[i], live[id])
  {
    forall id | id in live && id != i ensures Apart(live[i], live[id]) {
      LiveApart(base, cursor, free, live, i, id);
    }
    hide Partition;
  }

  lemma StateGrown(x: Invocation, env: Environment, held: map<Slot, Allocation>, live: map<nat, Allocation>,
                   bytes: seq<int>, bytes': seq<int>)
    requires State(x, env, held, live, bytes) && bytes <= bytes'
    requires forall id :: id in live ==> InMemory(bytes, live[id])
    ensures State(x, env, held, live, bytes')
  {
    forall id | id in live ensures Read(bytes', live[id]) == Read(bytes, live[id]) {
      ReadGrown(bytes, bytes', live[id]);
    }
    hide Read, ByteLength, InMemory;
    forall t | t in held ensures Holding(x, env, held, live, bytes', t) {
      assert Holding(x, env, held, live, bytes, t);
    }
  }

  lemma BorrowedBefore(x: Invocation, env: Environment, held: map<Slot, Allocation>, live: map<nat, Allocation>,
                       bytes: seq<int>, id: nat)
    requires State(x, env, held, live, bytes) && id in live && id < x.next
    ensures id in x.before && x.before[id] == live[id]
  {
    hide Read;
  }

  lemma WriteFits(bytes: seq<int>, al: Allocation, data: Bytes)
    requires InMemory(bytes, al) && |data| == al.byteLength
    ensures data != [] ==> al.offset + |data| <= |bytes|
    ensures |Write(bytes, al.offset, data)| == |bytes|
  {
  }

  lemma OwnSize(x: Invocation, env: Environment, held: map<Slot, Allocation>, live: map<nat, Allocation>,
                bytes: seq<int>, s: Slot)
    requires State(x, env, held, live, bytes) && s in held && s < |x.values|
    ensures held[s].byteLength == ByteLength(x.values[s].shape)
  {
    assert Holding(x, env, held, live, bytes, s);
  }

  /** Operands as the kernel reads them. */
  function OperandsAt(values: seq<ProgramValue>, inputs: seq<Slot>, fetched: seq<Allocation>,
                      bytes: seq<int>): seq<Tensor>
    requires |fetched| == |inputs| && forall i :: 0 <= i < |inputs| ==> inputs[i] < |values|
  {
    seq(|inputs|, i requires 0 <= i < |inputs| => Tensor(values[inputs[i]].shape, Read(bytes, fetched[i])))
  }

  /** They are the contents that the evaluation uses. */
  lemma OperandsRead(x: Invocation, env: Environment, held: map<Slot, Allocation>, live: map<nat, Allocation>,
                     bytes: seq<int>, inputs: seq<Slot>, fetched: seq<Allocation>)
    requires State(x, env, held, live, bytes) && |fetched| == |inputs|
    requires forall i :: 0 <= i < |inputs| ==> inputs[i] < |x.values|
    requires forall i :: 0 <= i < |inputs| ==>
               x.values[inputs[i]].storageSlot in held && held[x.values[inputs[i]].storageSlot] == fetched[i]
    ensures OperandsAt(x.values, inputs, fetched, bytes) == Operands(x.values, env, inputs)
  {
    var a, b := OperandsAt(x.values, inputs, fetched, bytes), Operands(x.values, env, inputs);
    forall i | 0 <= i < |inputs| ensures a[i] == b[i] {
      HeldIsLive(x, env, held, live, bytes, x.values[inputs[i]].storageSlot);
    }
    hide Read;
  }

  lemma OperandsSame(values: seq<ProgramValue>, env: Environment, env': Environment, inputs: seq<Slot>)
    requires forall i :: 0 <= i < |inputs| ==> inputs[i] < |values| && values[inputs[i]].storageSlot in env
    requires forall s :: s in env ==> s in env' && env'[s] == env[s]
    ensures Operands(values, env', inputs) == Operands(values, env, inputs)
  {
  }

  lemma HeldKnown(x: Invocation, env: Environment, held: map<Slot, Allocation>, live: map<nat, Allocation>,
                  bytes: seq<int>)
    requires State(x, env, held, live, bytes)
    ensures forall s :: s in held ==> s in env
  {
    forall s | s in held ensures s in env {
      assert Holding(x, env, held, live, bytes, s);
    }
    hide Read;
  }

  /** What computation k reads is known, and what it writes is not. */
  lemma ReadyToCompute(x: Invocation, apply: Semantics, k: nat)
    requires WellFormed(x.values, x.computations) && Sized(apply) && k < |x.computations|
    requires ProperBindings(x) && Bound(x.values, BoundBelow(x, |x.values|))
    ensures var env, c := Evaluate(apply, x.values, x.computations, BoundBelow(x, |x.values|), k), x.computations[k];
            && c.output < |x.values| && c.output !in env && !Borrowed(x, c.output)
            && forall i :: 0 <= i < |c.inputs| ==> c.inputs[i] < |x.values| && x.values[c.inputs[i]].storageSlot in env
  {
    var env0 := BoundBelow(x, |x.values|);
    var c := x.computations[k];
    assert ProperComputation(x.values, c);
    EvaluateKnown(apply, x.values, x.computations, env0, k, c.output);
    hide BoundBelow, Evaluate, Sized, Bound;
    forall i | 0 <= i < |c.inputs|
      ensures c.inputs[i] < |x.values|
      ensures x.values[c.inputs[i]].storageSlot in Evaluate(apply, x.values, x.computations, env0, k)
    {
      OperandKnown(x.values, x.computations, k, i);
      EvaluateKnown(apply, x.values, x.computations, env0, k, x.values[c.inputs[i]].storageSlot);
    }
  }
}
