/**
 * The consumer's side of one shared GPU completion. Callbacks may come back to
 * the completion while they run; what each of them does is given by a script.
 */
module SharedCompletion {
  import opened Options
  import opened SharedHeader

  datatype Outcome = Value(value: int) | Error(error: int) | ConnectionRetired

  datatype Action = RefreshAgain | RegisterDrained(callback: nat) | ObserveResult

  /** A callback that was made: the transport's own, the report of a failure, or one for the drain. */
  datatype Event = Retirement | FailureReport | Callback(id: nat)

  /** What has been seen is there, and a success that has been seen is drained. */
  predicate Seen(outcome: Option<Outcome>, w: World, value: int) {
    match outcome
    case None => true
    case Some(Value(v)) => v == value && w.drained
    case Some(Error(_)) => !w.status.Pending?
    case Some(ConnectionRetired) => w.retired
  }

  predicate Drained(w: World) { w.drained || w.accounted }

  /** Retirement once, a failure reported once, and every registered callback made or still to be made, once. */
  ghost predicate Accounted(events: seq<Event>, outcome: Option<Outcome>, retired: bool, drainCallbacks: seq<nat>,
                            flight: multiset<nat>, registered: multiset<nat>)
  {
    && multiset(events)[Retirement] == (if retired then 1 else 0)
    && multiset(events)[FailureReport] == (if outcome.Some? && !outcome.value.Value? then 1 else 0)
    && (forall id: nat :: multiset(events)[Callback(id)] + multiset(drainCallbacks)[id] + flight[id] == registered[id])
    && (retired ==> drainCallbacks == [] && outcome.Some?)
    && (!retired ==> flight == multiset{} && forall id: nat :: multiset(events)[Callback(id)] == 0)
  }

  lemma Reported(events: seq<Event>, outcome: Outcome, drainCallbacks: seq<nat>, registered: multiset<nat>,
                 none: Option<Outcome>)
    requires none == None && Accounted(events, none, false, drainCallbacks, multiset{}, registered)
    ensures Accounted(if outcome.Value? then events else events + [FailureReport], Some(outcome), false, drainCallbacks,
                      multiset{}, registered)
  {
  }

  lemma Retires(events: seq<Event>, outcome: Option<Outcome>, drainCallbacks: seq<nat>, registered: multiset<nat>,
                emptied: seq<nat>)
    requires Accounted(events, outcome, false, drainCallbacks, multiset{}, registered) && outcome.Some? && emptied == []
    ensures Accounted(events + [Retirement], outcome, true, emptied, multiset(drainCallbacks), registered)
  {
  }

  lemma Ran(events: seq<Event>, outcome: Option<Outcome>, callbacks: seq<nat>, flight: multiset<nat>,
            registered: multiset<nat>, none: seq<nat>)
    requires callbacks != [] && Accounted(events, outcome, true, none, flight + multiset(callbacks), registered)
    ensures Accounted(events + [Callback(callbacks[0])], outcome, true, none, flight + multiset(callbacks[1..]),
                      registered)
  {
    assert callbacks == [callbacks[0]] + callbacks[1..];
  }

  lemma RanNext(events: seq<Event>, outcome: Option<Outcome>, callbacks: seq<nat>, registered: multiset<nat>,
                none: seq<nat>)
    requires callbacks != [] && Accounted(events, outcome, true, none, multiset(callbacks), registered)
    ensures Accounted(events + [Callback(callbacks[0])], outcome, true, none, multiset(callbacks[1..]), registered)
  {
    hide Accounted;
    assert multiset{} + multiset(callbacks) == multiset(callbacks);
    assert multiset{} + multiset(callbacks[1..]) == multiset(callbacks[1..]);
    Ran(events, outcome, callbacks, multiset{}, registered, none);
  }

  lemma RanAtOnce(events: seq<Event>, outcome: Option<Outcome>, flight: multiset<nat>, registered: multiset<nat>,
                  id: nat, none: seq<nat>)
    requires Accounted(events, outcome, true, none, flight, registered)
    ensures Accounted(events + [Callback(id)], outcome, true, none, flight, registered + multiset{id})
  {
  }

  lemma Registers(events: seq<Event>, outcome: Option<Outcome>, drainCallbacks: seq<nat>, flight: multiset<nat>,
                  registered: multiset<nat>, id: nat)
    requires Accounted(events, outcome, false, drainCallbacks, flight, registered)
    ensures Accounted(events, outcome, false, drainCallbacks + [id], flight, registered + multiset{id})
  {
  }

  lemma SeenLater(outcome: Option<Outcome>, w: World, v: World, value: int)
    requires Seen(outcome, w, value) && Later(w, v)
    ensures Seen(outcome, v, value)
  {
    hide Pulsing, Informed;
  }

  lemma DrainedLater(w: World, v: World)
    requires Drained(w) && Later(w, v)
    ensures Drained(v)
  {
    hide Pulsing, Informed;
  }

  /** Retirement happened once, and every registered callback has been made once or is about to be. */
  ghost predicate CalledOnce(events: seq<Event>, flight: multiset<nat>, registered: multiset<nat>) {
    && multiset(events)[Retirement] == 1
    && forall id: nat :: multiset(events)[Callback(id)] + flight[id] == registered[id]
  }

  lemma RetiredCalls(events: seq<Event>, outcome: Option<Outcome>, retired: bool, drainCallbacks: seq<nat>,
                     flight: multiset<nat>, registered: multiset<nat>)
    requires Accounted(events, outcome, retired, drainCallbacks, flight, registered) && retired
    ensures CalledOnce(events, flight, registered)
  {
  }

  class SharedGpuCompletion {
    const connection: Connection
    var outcome: Option<Outcome>
    var resultObserver: Option<Option<Outcome>>
    var drainCallbacks: seq<nat>
    var retired: bool
    var script: seq<seq<Action>>
    var events: seq<Event>
    ghost var registered: multiset<nat>

    /** With callbacks that are about to be made. */
    ghost predicate Consistent(flight: multiset<nat>)
      reads this, connection
    {
      && connection.Valid() && Seen(outcome, connection.world, connection.value)
      && Accounted(events, outcome, retired, drainCallbacks, flight, registered)
      && (retired ==> Drained(connection.world))
      && (resultObserver.Some? && resultObserver.value.Some? ==> resultObserver.value == outcome)
    }

    ghost predicate Valid()
      reads this, connection
    {
      Consistent(multiset{})
    }

    constructor (connection: Connection, script: seq<seq<Action>>)
      requires connection.Valid()
      ensures Valid() && this.connection == connection && outcome.None? && !retired
    {
      this.connection, this.script := connection, script;
      outcome, resultObserver, drainCallbacks, retired, events := None, None, [], false, [];
      registered := multiset{};
    }

    /** What a step of the consumer may have changed. */
    twostate predicate Onward()
      reads this, connection
    {
      && Later(old(connection.world), connection.world) && |connection.schedule| <= |old(connection.schedule)|
      && (|connection.schedule| < |old(connection.schedule)| || connection.world == old(connection.world))
      && |script| <= |old(script)|
      && (old(outcome).Some? ==> outcome == old(outcome)) && (old(retired) ==> retired)
      && (old(outcome).Some? && old(Told()) ==> Told()) && old(registered) <= registered
    }

    /** Whoever observes the result has been told it. */
    ghost predicate Told()
      reads this
    {
      outcome.Some? && resultObserver.Some? ==> resultObserver.value.Some?
    }

    /** What happens before an atomic load of the consumer. */
    method Interleave(ghost flight: multiset<nat>)
      requires Consistent(flight)
      modifies connection
      ensures Consistent(flight) && Onward()
    {
      hide Later, Accounted;
      ghost var before := connection.world;
      connection.Yield();
      SeenLater(outcome, before, connection.world, connection.value);
      if retired {
        DrainedLater(before, connection.world);
      }
    }

    /** Has it drained? Either its own word or the connection's tells. */
    method IsDrained(ghost flight: multiset<nat>) returns (drained: bool)
      requires Consistent(flight)
      modifies connection
      ensures Consistent(flight) && Onward()
      ensures drained ==> Drained(connection.world)
      ensures Drained(old(connection.world)) ==> drained
    {
      hide Later, Accounted, Seen;
      ghost var before := connection.world;
      Interleave(flight);
      ghost var first := connection.world;
      drained := connection.world.drained;
      LaterSame(first);
      if !drained {
        Interleave(flight);
        drained := connection.world.accounted;
      }
      DrainedParts(before, first, connection.world);
    }

    /** What is to be seen of the outcome, if anything. */
    method Inspect(ghost flight: multiset<nat>) returns (seen: Option<Outcome>)
      requires Consistent(flight)
      modifies connection
      ensures Consistent(flight) && Onward() && Seen(seen, connection.world, connection.value)
      ensures seen.None? && Informed(connection.world) ==>
                connection.world.pulse > old(connection.world.pulse) || Pulsing(connection.world)
    {
      hide Later, Accounted;
      ghost var before := connection.world;
      Interleave(flight);
      ghost var first := connection.world;
      var status := connection.world.status;
      SuccessParts(connection.world, connection.value);
      if status.Failure? {
        return Some(Error(status.error));
      }
      Interleave(flight);
      LaterMore(before, first, connection.world);
      InspectedParts(before, first, connection.world);
      SuccessParts(connection.world, connection.value);
      if connection.world.retired {
        return Some(ConnectionRetired);
      }
      if status.Success? {
        ghost var second := connection.world;
        Interleave(flight);
        LaterMore(first, second, connection.world);
        SuccessLater(first, connection.world, connection.value);
        LaterMore(before, first, connection.world);
        return Some(Value(connection.world.payload.value));
      }
      return None;
    }

    /**
     * Takes over what is to be seen, tells whoever observes it, and retires once
     * the completion has drained as well.
     */
    method Refresh(ghost flight: multiset<nat>)
      requires Consistent(flight)
      modifies this, connection
      ensures Consistent(flight) && Onward()
      ensures outcome.Some? && (Drained(old(connection.world)) || outcome.value.Value?) ==> retired
      ensures retired ==> CalledOnce(events, flight, registered)
      ensures Told()
      ensures outcome.None? && Informed(connection.world) ==>
                connection.world.pulse > old(connection.world.pulse) || Pulsing(connection.world)
      decreases |script|, 2
    {
      hide Later, Accounted, Seen, Informed, Pulsing, Drained, CalledOnce;
      ghost var before := connection.world;
      LaterSame(before);
      Notice(flight);
      if outcome.Some? && resultObserver.Some? {
        resultObserver := Some(outcome);
      }
      ghost var noticed := connection.world;
      var drained := IsDrained(flight);
      LaterMore(before, noticed, connection.world);
      InformedLater(before, noticed, connection.world);
      SeenDrained(outcome, before, noticed, connection.value);
      if drained && outcome.Some? && !retired {
        ghost var settled := connection.world;
        FlightEmpty(events, outcome, drainCallbacks, flight, registered);
        RetireNow();
        LaterMore(before, settled, connection.world);
      }
      if retired {
        RetiredCalls(events, outcome, retired, drainCallbacks, flight, registered);
      }
    }

    /** Takes over what is to be seen, unless that has been done. */
    method Notice(ghost flight: multiset<nat>)
      requires Consistent(flight)
      modifies this, connection
      ensures Consistent(flight) && Onward()
      ensures outcome.None? && Informed(connection.world) ==>
                connection.world.pulse > old(connection.world.pulse) || Pulsing(connection.world)
      decreases |script|, 1, 1
    {
      hide Later, Accounted, Seen, Informed, Pulsing, Drained;
      ghost var before := connection.world;
      LaterSame(before);
      if outcome.Some? {
        return;
      }
      var seen := Inspect(flight);
      if seen.None? {
        return;
      }
      ghost var inspected := connection.world;
      NotRetired(events, outcome, retired, drainCallbacks, flight, registered);
      Reported(events, seen.value, drainCallbacks, registered, outcome);
      outcome := seen;
      if !seen.value.Value? {
        events := events + [FailureReport];
        RunScript(flight);
        LaterMore(before, inspected, connection.world);
      }
    }

    /** Retirement first, then the callbacks in the order they were registered. */
    method RetireNow()
      requires Consistent(multiset{}) && !retired && outcome.Some? && Drained(connection.world)
      modifies this, connection
      ensures Consistent(multiset{}) && Onward() && retired
      decreases |script|, 1, 1
    {
      hide Later, Seen, Drained, Accounted;
      ghost var before := connection.world;
      LaterSame(before);
      retired := true;
      var callbacks := drainCallbacks;
      drainCallbacks := [];
      Retires(events, outcome, callbacks, registered, drainCallbacks);
      events := events + [Retirement];
      RunScript(multiset(callbacks));
      while callbacks != []
        invariant Consistent(multiset(callbacks)) && retired && Onward()
        decreases |callbacks|
      {
        ghost var earlier := connection.world;
        RetiredEmpty(events, outcome, drainCallbacks, multiset(callbacks), registered);
        RanNext(events, outcome, callbacks, registered, drainCallbacks);
        events := events + [Callback(callbacks[0])];
        callbacks := callbacks[1..];
        RunScript(multiset(callbacks));
        LaterMore(before, earlier, connection.world);
      }
      assert multiset(callbacks) == multiset{};
    }

    /** Calls back once the completion has drained, at once if it has been retired. */
    method OnDrained(callback: nat, ghost flight: multiset<nat>)
      requires Consistent(flight)
      modifies this, connection
      ensures Consistent(flight) && Onward() && old(registered) + multiset{callback} <= registered
      decreases |script|, 3
    {
      hide Later, Seen, Drained, Accounted;
      if retired {
        RetiredEmpty(events, outcome, drainCallbacks, flight, registered);
        RanAtOnce(events, outcome, flight, registered, callback, drainCallbacks);
        registered := registered + multiset{callback};
        events := events + [Callback(callback)];
        RunScript(flight);
        return;
      }
      Registers(events, outcome, drainCallbacks, flight, registered, callback);
      registered := registered + multiset{callback};
      drainCallbacks := drainCallbacks + [callback];
      Refresh(flight);
    }

    /** A callback runs. It may come back to this completion. */
    method RunScript(ghost flight: multiset<nat>)
      requires Consistent(flight)
      modifies this, connection
      ensures Consistent(flight) && Onward()
      decreases |script|, 0
    {
      hide Later, Seen, Drained, Accounted;
      ghost var before := connection.world;
      LaterSame(before);
      if script == [] {
        return;
      }
      var actions := script[0];
      script := script[1..];
      ghost var limit := |script|;
      for i := 0 to |actions|
        invariant Consistent(flight) && Onward() && |script| <= limit
      {
        ghost var earlier := connection.world;
        match actions[i] {
          case RefreshAgain => Refresh(flight);
          case RegisterDrained(callback) => OnDrained(callback, flight);
          case ObserveResult => ObserveOutcome(flight);
        }
        LaterMore(before, earlier, connection.world);
      }
    }

    /** A promise of the result, which the next refresh that sees it will tell. */
    method ObserveOutcome(ghost flight: multiset<nat>)
      requires Consistent(flight)
      modifies this, connection
      ensures Consistent(flight) && Onward() && Told()
      decreases |script|, 3
    {
      hide Later, Seen, Drained, Accounted;
      resultObserver := Some(None);
      Refresh(flight);
    }

    /**
     * Waits for the outcome. Nothing is returned only if the other threads' moves
     * end with the reader asleep, and then they end without an outcome to be
     * seen, or before the thread that stored it has notified.
     */
    method Read() returns (result: Option<Outcome>)
      requires Valid()
      modifies this, connection
      ensures Valid() && result == outcome && (result.Some? && result.value.Value? ==> retired)
      ensures result.None? ==> connection.schedule == [] && (Informed(connection.world) ==> Notifying(connection.world))
    {
      hide Later, Seen, Drained, Accounted, Informed, Pulsing, Notifying;
      if outcome.Some? {
        Refresh(multiset{});
        return outcome;
      }
      while outcome.None?
        invariant Valid() && (outcome.Some? && outcome.value.Value? ==> retired)
        decreases |connection.schedule|, if outcome.None? then 1 else 0
      {
        Interleave(multiset{});
        var pulse := connection.world.pulse;
        ghost var loaded := connection.world;
        Refresh(multiset{});
        LaterPulse(loaded, connection.world);
        if outcome.None? {
          ghost var asleep := connection.world;
          var woken := connection.Wait(pulse);
          SeenLater(outcome, asleep, connection.world, connection.value);
          NotRetired(events, outcome, retired, drainCallbacks, multiset{}, registered);
          if !woken {
            return None;
          }
        }
      }
      return outcome;
    }
  }

  lemma LaterPulse(a: World, b: World)
    requires Later(a, b)
    ensures a.pulse <= b.pulse
  {
  }

  /** What has become visible since is followed by a pulse. */
  lemma InformedLater(a: World, b: World, c: World)
    requires Later(a, b) && Later(b, c)
    ensures (Informed(b) ==> b.pulse > a.pulse || Pulsing(b)) ==> (Informed(c) ==> c.pulse > a.pulse || Pulsing(c))
  {
    hide Informed, Pulsing;
  }

  lemma SeenDrained(outcome: Option<Outcome>, a: World, b: World, value: int)
    requires Seen(outcome, b, value) && Later(a, b)
    ensures outcome.Some? && (Drained(a) || outcome.value.Value?) ==> Drained(b)
  {
    hide Informed, Pulsing;
  }

  lemma NotRetired(events: seq<Event>, outcome: Option<Outcome>, retired: bool, drainCallbacks: seq<nat>,
                   flight: multiset<nat>, registered: multiset<nat>)
    requires Accounted(events, outcome, retired, drainCallbacks, flight, registered) && outcome.None?
    ensures !retired && flight == multiset{}
  {
  }

  lemma FlightEmpty(events: seq<Event>, outcome: Option<Outcome>, drainCallbacks: seq<nat>, flight: multiset<nat>,
                    registered: multiset<nat>)
    ensures Accounted(events, outcome, false, drainCallbacks, flight, registered) ==> flight == multiset{}
  {
  }

  lemma RetiredEmpty(events: seq<Event>, outcome: Option<Outcome>, drainCallbacks: seq<nat>, flight: multiset<nat>,
                     registered: multiset<nat>)
    requires Accounted(events, outcome, true, drainCallbacks, flight, registered)
    ensures drainCallbacks == []
  {
  }

  lemma DrainedParts(a: World, b: World, c: World)
    requires Later(a, b) && Later(b, c)
    ensures Drained(a) ==> b.drained || c.accounted
    ensures Later(a, c) && (b.drained ==> c.drained)
  {
    LaterMore(a, b, c);
    hide Pulsing, Informed;
  }

  lemma SuccessParts(w: World, value: int)
    requires Right(w, value)
    ensures w.status.Success? ==> w.drained && w.payload == Some(value)
  {
  }

  lemma SuccessLater(a: World, b: World, value: int)
    requires Right(a, value) && Right(b, value) && a.status.Success? && Later(a, b)
    ensures b.drained && b.payload == Some(value)
  {
  }

  lemma InspectedParts(a: World, b: World, c: World)
    requires Later(a, b) && Later(b, c)
    ensures b.status.Pending? && !c.retired && Informed(c) ==> c.pulse > a.pulse || Pulsing(c)
  {
    hide Pulsing;
  }
}
