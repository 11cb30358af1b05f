/**
 * The shared header of one GPU completion and the control words of its
 * connection, with everything that other threads may do to them between two
 * atomic operations of the consumer.
 */
module SharedHeader {
  import opened Options

  datatype Status = Pending | Success | Failure(error: int)

  /** One atomic operation of another thread. */
  datatype Op =
    | StorePayload(value: int)
    | StoreDrained
    | StoreSuccess
    | StoreFailure(error: int)
    | StoreAccounted
    | RetireGeneration
    | AddPulse
    | Notify

  /** What a thread may set out to do, any number of times. */
  datatype Publication = Succeed | Fail(error: int) | Drain | Retire | Account | Wake

  function Operations(p: Publication, value: int): seq<Op> {
    match p
    case Succeed => [StorePayload(value), StoreDrained, StoreSuccess, AddPulse, Notify]
    case Fail(error) => [StoreFailure(error), AddPulse, Notify]
    case Drain => [StoreDrained, AddPulse, Notify]
    case Retire => [RetireGeneration, AddPulse, Notify]
    case Account => [StoreAccounted, RetireGeneration, AddPulse, Notify]
    case Wake => [AddPulse, Notify]
  }

  /** Each thread is the operations of its publication still to come. */
  datatype World = World(
    status: Status, payload: Option<int>, drained: bool, retired: bool, accounted: bool, pulse: nat,
    threads: seq<seq<Op>>)

  datatype Move = Begin(publication: Publication) | Do(thread: nat)

  function Effect(w: World, op: Op): World {
    match op
    case StorePayload(value) => w.(payload := Some(value))
    case StoreDrained => w.(drained := true)
    case StoreSuccess => w.(status := Success)
    case StoreFailure(error) => w.(status := Failure(error))
    case StoreAccounted => w.(accounted := true)
    case RetireGeneration => w.(retired := true)
    case AddPulse => w.(pulse := w.pulse + 1)
    case Notify => w
  }

  function After(w: World, move: Move, value: int): World {
    if move.Begin? then w.(threads := w.threads + [Operations(move.publication, value)])
    else if move.thread < |w.threads| && w.threads[move.thread] != [] then
      var op := w.threads[move.thread][0];
      Effect(w, op).(threads := w.threads[move.thread := w.threads[move.thread][1..]])
    else w
  }

  /** The move wakes whoever is asleep on the pulse. */
  predicate Wakes(w: World, move: Move) {
    move.Do? && move.thread < |w.threads| && w.threads[move.thread] != [] && w.threads[move.thread][0] == Notify
  }

  /** Where a thread can be in its publication, with what it has stored already. */
  predicate ThreadAt(w: World, ops: seq<Op>, value: int) {
    || ops == [] || ops == [Notify] || ops == [AddPulse, Notify]
    || ops == [RetireGeneration, AddPulse, Notify] || ops == [StoreAccounted, RetireGeneration, AddPulse, Notify]
    || ops == [StoreDrained, AddPulse, Notify]
    || (|ops| == 3 && ops[0].StoreFailure? && ops[1..] == [AddPulse, Notify])
    || (ops == [StoreSuccess, AddPulse, Notify] && w.drained && w.payload == Some(value))
    || (ops == [StoreDrained, StoreSuccess, AddPulse, Notify] && w.payload == Some(value))
    || ops == [StorePayload(value), StoreDrained, StoreSuccess, AddPulse, Notify]
  }

  /** A success is drained, and its payload is in place. */
  predicate Right(w: World, value: int) {
    && (w.status.Success? ==> w.drained && w.payload == Some(value))
    && (w.payload.Some? ==> w.payload == Some(value))
    && forall t :: 0 <= t < |w.threads| ==> ThreadAt(w, w.threads[t], value)
  }

  /** There is an outcome to be seen. */
  predicate Informed(w: World) { !w.status.Pending? || w.retired }

  /** A thread has stored something and not yet added to the pulse. */
  predicate Pulsing(w: World) { exists t :: 0 <= t < |w.threads| && w.threads[t] == [AddPulse, Notify] }

  /** A thread has still to notify. */
  predicate Notifying(w: World) {
    exists t :: 0 <= t < |w.threads| && (w.threads[t] == [AddPulse, Notify] || w.threads[t] == [Notify])
  }

  /** Flags are only ever set, and whatever becomes visible is followed by a pulse. */
  predicate Later(w: World, v: World) {
    && w.pulse <= v.pulse && (w.drained ==> v.drained) && (w.retired ==> v.retired) && (w.accounted ==> v.accounted)
    && (!w.status.Pending? ==> !v.status.Pending?) && (w.payload.Some? ==> v.payload.Some?)
    && (Informed(v) && !Informed(w) ==> v.pulse > w.pulse || Pulsing(v))
    && (Pulsing(w) ==> v.pulse > w.pulse || Pulsing(v))
  }

  lemma ThreadKeeps(w: World, move: Move, value: int, t: nat)
    requires Right(w, value) && t < |After(w, move, value).threads|
    ensures ThreadAt(After(w, move, value), After(w, move, value).threads[t], value)
  {
    var v := After(w, move, value);
    if t < |w.threads| {
      assert ThreadAt(w, w.threads[t], value);
    }
    if move.Do? && move.thread < |w.threads| && w.threads[move.thread] != [] {
      assert ThreadAt(w, w.threads[move.thread], value);
    }
  }

  /** Every move of every thread keeps a success drained. */
  lemma MoveKeeps(w: World, move: Move, value: int)
    requires Right(w, value)
    ensures Right(After(w, move, value), value)
  {
    var v := After(w, move, value);
    forall t | 0 <= t < |v.threads| ensures ThreadAt(v, v.threads[t], value) {
      ThreadKeeps(w, move, value, t);
    }
    if move.Do? && move.thread < |w.threads| && w.threads[move.thread] != [] {
      assert ThreadAt(w, w.threads[move.thread], value);
    }
  }

  lemma MoveLater(w: World, move: Move, value: int)
    requires Right(w, value)
    ensures Later(w, After(w, move, value))
    ensures Notifying(w) && !Wakes(w, move) ==> Notifying(After(w, move, value))
    ensures Informed(After(w, move, value)) && !Informed(w) ==> Notifying(After(w, move, value))
  {
    hide Pulsing, Notifying, Wakes, Right, After, Informed;
    MoveFlags(w, move, value);
    MoveInforms(w, move, value);
    MovePulses(w, move, value);
  }

  lemma MoveFlags(w: World, move: Move, value: int)
    requires Right(w, value)
    ensures var v := After(w, move, value);
            && w.pulse <= v.pulse && (w.drained ==> v.drained) && (w.retired ==> v.retired)
            && (w.accounted ==> v.accounted) && (!w.status.Pending? ==> !v.status.Pending?)
            && (w.payload.Some? ==> v.payload.Some?)
  {
    hide Right, Operations;
  }

  /** What becomes visible leaves its thread about to add to the pulse. */
  lemma MoveInforms(w: World, move: Move, value: int)
    requires Right(w, value)
    ensures var v := After(w, move, value);
            Informed(v) && !Informed(w) ==> Pulsing(v) && Notifying(v)
  {
    var v := After(w, move, value);
    if move.Do? && move.thread < |w.threads| && w.threads[move.thread] != [] {
      assert ThreadAt(w, w.threads[move.thread], value);
      assert v.threads[move.thread] == w.threads[move.thread][1..];
    }
  }

  lemma MovePulses(w: World, move: Move, value: int)
    ensures var v := After(w, move, value);
            && (Pulsing(w) ==> v.pulse > w.pulse || Pulsing(v))
            && (Notifying(w) && !Wakes(w, move) ==> Notifying(v))
  {
    var v := After(w, move, value);
    if Pulsing(w) {
      var t :| 0 <= t < |w.threads| && w.threads[t] == [AddPulse, Notify];
      assert v.pulse > w.pulse || v.threads[t] == [AddPulse, Notify];
    }
    if Notifying(w) && !Wakes(w, move) {
      var t :| 0 <= t < |w.threads| && (w.threads[t] == [AddPulse, Notify] || w.threads[t] == [Notify]);
      assert v.threads[t] == [AddPulse, Notify] || v.threads[t] == [Notify];
    }
  }

  lemma LaterMore(a: World, b: World, c: World)
    requires Later(a, b) && Later(b, c)
    ensures Later(a, c)
  {
    hide Pulsing;
  }

  lemma LaterSame(w: World)
    ensures Later(w, w)
  {
  }

  /** The threads together with a schedule of their moves. */
  class Connection {
    const value: int
    var world: World
    var schedule: seq<seq<Move>>

    ghost predicate Valid()
      reads this
    {
      Right(world, value)
    }

    /** Lets the other threads make any number of moves. */
    method Yield()
      requires Valid()
      modifies this
      ensures Valid() && Later(old(world), world) && |schedule| <= |old(schedule)|
      ensures |schedule| < |old(schedule)| || world == old(world)
    {
      hide Later, Right;
      LaterSame(world);
      if schedule == [] {
        return;
      }
      var moves := schedule[0];
      schedule := schedule[1..];
      ghost var rest := schedule;
      for i := 0 to |moves|
        invariant Valid() && Later(old(world), world) && schedule == rest
      {
        MoveKeeps(world, moves[i], value);
        MoveLater(world, moves[i], value);
        LaterMore(old(world), world, After(world, moves[i], value));
        world := After(world, moves[i], value);
      }
    }

    /**
     * Sleeps until notified, unless the pulse has changed. Returns false if the
     * schedule ends before that.
     */
    method Wait(pulse: nat) returns (woken: bool)
      requires Valid() && pulse <= world.pulse
      requires Informed(world) ==> world.pulse > pulse || Pulsing(world)
      modifies this
      ensures Valid() && Later(old(world), world) && |schedule| <= |old(schedule)|
      ensures woken ==> world.pulse > pulse || |schedule| < |old(schedule)|
      ensures |schedule| < |old(schedule)| || world == old(world)
      ensures !woken ==> schedule == [] && (Informed(world) ==> Notifying(world))
    {
      hide Later, Right;
      LaterSame(world);
      if world.pulse != pulse {
        return true;
      }
      assert Informed(world) ==> Notifying(world);
      while schedule != []
        invariant Valid() && Later(old(world), world) && |schedule| <= |old(schedule)|
        invariant |schedule| < |old(schedule)| || world == old(world)
        invariant Informed(world) ==> Notifying(world)
        decreases |schedule|
      {
        var moves := schedule[0];
        schedule := schedule[1..];
        ghost var rest := schedule;
        woken := false;
        for i := 0 to |moves|
          invariant Valid() && Later(old(world), world) && schedule == rest
          invariant !woken ==> (Informed(world) ==> Notifying(world))
        {
          MoveKeeps(world, moves[i], value);
          MoveLater(world, moves[i], value);
          LaterMore(old(world), world, After(world, moves[i], value));
          woken := woken || Wakes(world, moves[i]);
          world := After(world, moves[i], value);
        }
        if woken {
          return true;
        }
      }
      return false;
    }
  }
}
