/** The session's queue of execution requests, driven by synchronous reads, by delivered results, or by both. */
module RequestQueue {
  import opened Options
  import opened Requests

  /** A result to be delivered to the pending step that asked for it. */
  datatype Callback = Callback(request: Id, serial: nat, step: Step)

  /** A request that is told when a step has drained. */
  datatype Registration = Registration(request: Id, step: Step)

  /** Where the links of the queue start and end. */
  predicate Linked(head: Option<Id>, tail: Option<Id>, first: nat, size: nat) {
    && head == (if first < size then Some(first) else None)
    && tail == (if first < size then Some(size - 1) else None)
  }

  /** Requests have been published in admission order, each once. */
  predicate InOrder(published: seq<Id>) { forall i :: 0 <= i < |published| ==> published[i] == i }

  /** A step that has to be observed: nothing else would make it progress. */
  predicate MustObserve(r: Request)
    requires r.waiting.Some?
  {
    var step := r.waiting.value.step;
    !step.ticket || !step.readable || r.completion.Observed? || r.asyncProgress
  }

  predicate Delivers(callback: Callback, request: Id, pending: Pending) {
    callback.request == request && callback.serial == pending.serial
  }

  /** The pending step of r has callbacks if it is observed, and they bring its result. */
  predicate DeliverableAt(r: Request, k: Id, callbacks: seq<Callback>, serial: nat) {
    r.waiting.Some? ==>
      var pending := r.waiting.value;
      && pending.serial < serial
      && (pending.observed ==> exists i :: 0 <= i < |callbacks| && Delivers(callbacks[i], k, pending))
      && forall i :: 0 <= i < |callbacks| && Delivers(callbacks[i], k, pending) ==> callbacks[i].step == pending.step
  }

  predicate Deliverable(requests: seq<Request>, callbacks: seq<Callback>, serial: nat) {
    && (forall i :: 0 <= i < |callbacks| ==> callbacks[i].serial < serial && callbacks[i].request < |requests|)
    && (forall k :: 0 <= k < |requests| ==> DeliverableAt(requests[k], k, callbacks, serial))
  }

  predicate AttendedAt(r: Request) { r.waiting.Some? && MustObserve(r) ==> r.waiting.value.observed }

  /** Every pending step that has to be observed is. */
  predicate Attended(requests: seq<Request>) { forall k :: 0 <= k < |requests| ==> AttendedAt(requests[k]) }

  function CountFor(registrations: seq<Registration>, k: Id): nat {
    if registrations == [] then 0
    else
      CountFor(registrations[..|registrations| - 1], k)
      + if registrations[|registrations| - 1].request == k then 1 else 0
  }

  lemma {:induction false} CountRemove(registrations: seq<Registration>, i: nat, k: Id)
    requires i < |registrations|
    ensures CountFor(registrations[..i] + registrations[i + 1..], k) + (if registrations[i].request == k then 1 else 0)
         == CountFor(registrations, k)
  {
    var last := |registrations| - 1;
    var r := registrations[..i] + registrations[i + 1..];
    if i < last {
      CountRemove(registrations[..last], i, k);
      assert r[..|r| - 1] == registrations[..last][..i] + registrations[..last][i + 1..];
    } else {
      assert r == registrations[..last];
    }
  }

  lemma {:induction false} CountPositive(registrations: seq<Registration>, i: nat)
    requires i < |registrations|
    ensures CountFor(registrations, registrations[i].request) > 0
  {
    if i < |registrations| - 1 {
      CountPositive(registrations[..|registrations| - 1], i);
    }
  }

  /** One registration for each step. */
  function Registered(request: Id, steps: seq<Step>): seq<Registration> {
    if steps == [] then [] else Registered(request, steps[..|steps| - 1]) + [Registration(request, steps[|steps| - 1])]
  }

  lemma {:induction false} CountMore(registrations: seq<Registration>, request: Id, steps: seq<Step>, k: Id)
    ensures CountFor(registrations + Registered(request, steps), k)
         == CountFor(registrations, k) + if k == request then |steps| else 0
  {
    var more := registrations + Registered(request, steps);
    if steps == [] {
      assert more == registrations;
    } else {
      CountMore(registrations, request, steps[..|steps| - 1], k);
      assert more[..|more| - 1] == registrations + Registered(request, steps[..|steps| - 1]);
    }
  }

  lemma {:induction false} InRegistered(request: Id, steps: seq<Step>, step: Step)
    requires step in steps
    ensures Registration(request, step) in Registered(request, steps)
  {
    if step != steps[|steps| - 1] {
      InRegistered(request, steps[..|steps| - 1], step);
    }
  }

  /** The steps not known to have drained. */
  function Undrained(steps: seq<Step>, drained: set<nat>): (r: seq<Step>)
    ensures forall step :: step in steps ==> step in r || step.id in drained
    ensures |r| <= |steps| && forall step :: step in r ==> step in steps
  {
    if steps == [] then []
    else
      var step := steps[|steps| - 1];
      var rest := Undrained(steps[..|steps| - 1], drained);
      if step.readable && step.id in drained then rest else rest + [step]
  }

  /** What is registered for a request are tickets of its own. */
  predicate OwnTickets(r: Request, k: Id, registrations: seq<Registration>) {
    forall i :: 0 <= i < |registrations| && registrations[i].request == k ==>
      registrations[i].step in Tickets(r.routine, r.fed)
  }

  /**
   * A settled request has retired once, or is registered with as many steps as it still
   * counts; no ticket is forgotten.
   */
  predicate DrainingAt(r: Request, k: Id, registrations: seq<Registration>, drained: set<nat>) {
    && r.remaining == CountFor(registrations, k)
    && (r.running ==> r.remaining == 0 && r.retired == 0)
    && (!r.running ==> r.retired == if r.remaining == 0 then 1 else 0)
    && (!r.running ==>
          forall step :: step in Tickets(r.routine, r.fed) ==>
              step.id in drained || Registration(k, step) in registrations)
    && (!r.running ==> OwnTickets(r, k, registrations))
  }

  predicate Draining(requests: seq<Request>, registrations: seq<Registration>, drained: set<nat>) {
    && (forall k :: 0 <= k < |requests| ==> DrainingAt(requests[k], k, registrations, drained))
    && (forall i :: 0 <= i < |registrations| ==> registrations[i].request < |requests|)
  }

  /** The requests that have not retired. */
  function Leased(requests: seq<Request>): nat {
    if requests == [] then 0
    else Leased(requests[..|requests| - 1]) + if requests[|requests| - 1].retired == 0 then 1 else 0
  }

  lemma {:induction false} LeasedUpdate(requests: seq<Request>, k: nat, r: Request)
    requires k < |requests|
    ensures Leased(requests[k := r]) + (if requests[k].retired == 0 then 1 else 0)
         == Leased(requests) + if r.retired == 0 then 1 else 0
  {
    var last := |requests| - 1;
    var after := requests[k := r];
    if k < last {
      LeasedUpdate(requests[..last], k, r);
      assert after[..last] == requests[..last][k := r];
    } else {
      assert after[..last] == requests[..last];
    }
  }

  /** A retired request has drained completely. */
  lemma RetiredDrained(r: Request, k: Id, registrations: seq<Registration>, drained: set<nat>)
    requires DrainingAt(r, k, registrations, drained)
    ensures r.retired <= 1
    ensures r.retired == 1 ==> !r.running && forall step :: step in Tickets(r.routine, r.fed) ==> step.id in drained
  {
    if r.retired == 1 {
      forall step | step in Tickets(r.routine, r.fed) ensures step.id in drained {
        if Registration(k, step) in registrations {
          var i :| 0 <= i < |registrations| && registrations[i] == Registration(k, step);
          CountPositive(registrations, i);
        }
      }
    }
    hide Tickets, CountFor;
  }

  /** Somebody wants the outcome: it is mandatory, or there is a promise of it. */
  predicate Wanted(r: Request) { r.asyncProgress || !r.completion.Unobserved? }

  /** The same requests, wanted as they were, and maybe more. */
  ghost predicate Persists(before: seq<Request>, after: seq<Request>) {
    |before| <= |after|
    && forall k :: 0 <= k < |before| ==>
         after[k].routine == before[k].routine && (Wanted(before[k]) ==> Wanted(after[k]))
  }

  /** A change that does not touch what draining depends on. */
  ghost predicate SameDraining(a: Request, b: Request) {
    && a.running == b.running && a.remaining == b.remaining && a.retired == b.retired && a.routine == b.routine
    && (!a.running ==> a.fed == b.fed)
  }

  lemma DrainingTouched(requests: seq<Request>, registrations: seq<Registration>, drained: set<nat>, k: nat, r: Request)
    requires Draining(requests, registrations, drained) && k < |requests| && SameDraining(requests[k], r)
    ensures Draining(requests[k := r], registrations, drained) && Leased(requests[k := r]) == Leased(requests)
  {
    LeasedUpdate(requests, k, r);
    var after := requests[k := r];
    forall i | 0 <= i < |after| ensures DrainingAt(after[i], i, registrations, drained) {
      assert DrainingAt(requests[i], i, registrations, drained);
    }
    hide CountFor, Tickets, Leased;
  }

  lemma DeliverableTouched(requests: seq<Request>, callbacks: seq<Callback>, serial: nat, k: nat, r: Request)
    requires Deliverable(requests, callbacks, serial) && k < |requests| && DeliverableAt(r, k, callbacks, serial)
    ensures Deliverable(requests[k := r], callbacks, serial)
  {
    hide DeliverableAt;
  }

  lemma AttendedTouched(requests: seq<Request>, k: nat, r: Request)
    requires Attended(requests) && k < |requests| && AttendedAt(r)
    ensures Attended(requests[k := r])
  {
    hide AttendedAt;
  }

  /** A fresh serial matches no callback. */
  lemma NewPending(requests: seq<Request>, callbacks: seq<Callback>, serial: nat, k: nat, r: Request, next: nat)
    requires Deliverable(requests, callbacks, serial) && k < |requests| && next == serial + 1
    requires r.waiting.Some? && r.waiting.value.serial == serial && !r.waiting.value.observed
    ensures Deliverable(requests[k := r], callbacks, next)
  {
    var after := requests[k := r];
    forall i | 0 <= i < |after| ensures DeliverableAt(after[i], i, callbacks, next) {
      assert DeliverableAt(requests[i], i, callbacks, serial);
    }
  }

  /** Asking for the result of the pending step. */
  lemma Observe(requests: seq<Request>, callbacks: seq<Callback>, serial: nat, k: nat)
    requires Deliverable(requests, callbacks, serial) && k < |requests| && requests[k].waiting.Some?
    ensures var pending := requests[k].waiting.value;
            Deliverable(requests[k := requests[k].(waiting := Some(pending.(observed := true)))],
                        callbacks + [Callback(k, pending.serial, pending.step)], serial)
  {
    var pending := requests[k].waiting.value;
    var after := requests[k := requests[k].(waiting := Some(pending.(observed := true)))];
    var more := callbacks + [Callback(k, pending.serial, pending.step)];
    assert Delivers(more[|callbacks|], k, pending.(observed := true));
    forall i | 0 <= i < |after| ensures DeliverableAt(after[i], i, more, serial) {
      assert DeliverableAt(requests[i], i, callbacks, serial);
      if after[i].waiting.Some? && i != k && after[i].waiting.value.observed {
        var c :| 0 <= c < |callbacks| && Delivers(callbacks[c], i, after[i].waiting.value);
        assert Delivers(more[c], i, after[i].waiting.value);
      }
    }
  }

  /** A delivered callback is no longer there; its pending step, if it is still that, is no longer waiting. */
  lemma Deliver(requests: seq<Request>, callbacks: seq<Callback>, serial: nat, c: nat, r': Request)
    requires Deliverable(requests, callbacks, serial) && c < |callbacks|
    ensures callbacks[c].request < |requests|
    ensures var callback := callbacks[c];
            var r := requests[callback.request];
            var rest := callbacks[..c] + callbacks[c + 1..];
            if r.waiting.Some? && r.waiting.value.serial == callback.serial
            then r.waiting.value.step == callback.step
                 && (r'.waiting.None? ==> Deliverable(requests[callback.request := r'], rest, serial))
            else Deliverable(requests, rest, serial)
  {
    var callback := callbacks[c];
    var r := requests[callback.request];
    var rest := callbacks[..c] + callbacks[c + 1..];
    assert DeliverableAt(r, callback.request, callbacks, serial);
    forall k | 0 <= k < |requests| && !(requests[k].waiting.Some? && Delivers(callback, k, requests[k].waiting.value))
      ensures DeliverableAt(requests[k], k, rest, serial)
    {
      DeliverOther(requests[k], k, callbacks, serial, c);
    }
    assert r.waiting.Some? && r.waiting.value.serial == callback.serial ==>
        Delivers(callbacks[c], callback.request, r.waiting.value);
  }

  lemma DeliverOther(r: Request, k: Id, callbacks: seq<Callback>, serial: nat, c: nat)
    requires DeliverableAt(r, k, callbacks, serial) && c < |callbacks|
    requires !(r.waiting.Some? && Delivers(callbacks[c], k, r.waiting.value))
    ensures DeliverableAt(r, k, callbacks[..c] + callbacks[c + 1..], serial)
  {
    var rest := callbacks[..c] + callbacks[c + 1..];
    if r.waiting.Some? && r.waiting.value.observed {
      var i :| 0 <= i < |callbacks| && Delivers(callbacks[i], k, r.waiting.value);
      assert Delivers(rest[if i < c then i else i - 1], k, r.waiting.value);
    }
  }

  lemma AddedRequest(requests: seq<Request>, r: Request, callbacks: seq<Callback>, serial: nat,
                     registrations: seq<Registration>, drained: set<nat>)
    requires Deliverable(requests, callbacks, serial) && Attended(requests)
    requires Draining(requests, registrations, drained)
    requires r.waiting.None? && r.running && r.remaining == 0 && r.retired == 0
    ensures Deliverable(requests + [r], callbacks, serial) && Attended(requests + [r])
    ensures Draining(requests + [r], registrations, drained) && Leased(requests + [r]) == Leased(requests) + 1
  {
    assert (requests + [r])[..|requests|] == requests;
    NoRegistrations(registrations, |requests|);
    forall k | 0 <= k < |requests + [r]| ensures DrainingAt((requests + [r])[k], k, registrations, drained) {
      assert k < |requests| ==> DrainingAt(requests[k], k, registrations, drained);
    }
    hide DeliverableAt, AttendedAt, CountFor, Tickets;
  }

  lemma {:induction false} NoRegistrations(registrations: seq<Registration>, k: Id)
    requires forall i :: 0 <= i < |registrations| ==> registrations[i].request < k
    ensures CountFor(registrations, k) == 0
  {
    if registrations != [] {
      NoRegistrations(registrations[..|registrations| - 1], k);
    }
  }

  /** Settling: the steps not known to have drained are registered, and without any the request retires at once. */
  lemma SettleDraining(requests: seq<Request>, registrations: seq<Registration>, drained: set<nat>, k: nat, r: Request,
                       steps: seq<Step>)
    requires Draining(requests, registrations, drained) && k < |requests| && requests[k].running && !r.running
    requires steps == Undrained(Tickets(r.routine, r.fed), drained)
    requires r.remaining == |steps| && r.retired == if steps == [] then 1 else 0
    ensures Draining(requests[k := r], registrations + Registered(k, steps), drained)
    ensures Leased(requests[k := r]) == Leased(requests) - if steps == [] then 1 else 0
  {
    hide CountFor, Tickets, Leased, Undrained, Registered, OwnTickets;
    var more := registrations + Registered(k, steps);
    LeasedUpdate(requests, k, r);
    assert DrainingAt(requests[k], k, registrations, drained);
    var after := requests[k := r];
    forall i | 0 <= i < |after| ensures DrainingAt(after[i], i, more, drained) {
      if i == k {
        SettledDraining(registrations, drained, k, r, steps);
      } else {
        assert DrainingAt(requests[i], i, registrations, drained);
        CountMore(registrations, k, steps, i);
        OwnElsewhere(requests[i], i, registrations, k, steps);
      }
    }
    RegisteredFor(k, steps);
    hide CountFor, Tickets, Leased, Undrained, Registered;
  }

  lemma OwnSettled(registrations: seq<Registration>, k: nat, r: Request, steps: seq<Step>)
    requires CountFor(registrations, k) == 0 && forall step :: step in steps ==> step in Tickets(r.routine, r.fed)
    ensures OwnTickets(r, k, registrations + Registered(k, steps))
  {
    hide CountFor, Tickets, Registered;
    var more := registrations + Registered(k, steps);
    RegisteredFor(k, steps);
    forall i | 0 <= i < |more| && more[i].request == k ensures more[i].step in Tickets(r.routine, r.fed) {
      if i < |registrations| {
        CountPositive(registrations, i);
      }
    }
  }

  lemma OwnElsewhere(r: Request, i: Id, registrations: seq<Registration>, k: Id, steps: seq<Step>)
    requires i != k && (!r.running ==> OwnTickets(r, i, registrations))
    ensures !r.running ==> OwnTickets(r, i, registrations + Registered(k, steps))
  {
    hide Tickets, Registered;
    RegisteredFor(k, steps);
  }

  lemma OwnRemains(r: Request, k: Id, registrations: seq<Registration>, c: nat)
    requires c < |registrations| && OwnTickets(r, k, registrations)
    ensures OwnTickets(r, k, registrations[..c] + registrations[c + 1..])
  {
    var rest := registrations[..c] + registrations[c + 1..];
    forall i | 0 <= i < |rest| && rest[i].request == k ensures rest[i].step in Tickets(r.routine, r.fed) {
      assert rest[i] == registrations[if i < c then i else i + 1];
    }
    hide Tickets;
  }

  lemma SettledDraining(registrations: seq<Registration>, drained: set<nat>, k: nat, r: Request, steps: seq<Step>)
    requires CountFor(registrations, k) == 0 && !r.running
    requires steps == Undrained(Tickets(r.routine, r.fed), drained)
    requires r.remaining == |steps| && r.retired == if steps == [] then 1 else 0
    ensures DrainingAt(r, k, registrations + Registered(k, steps), drained)
  {
    hide CountFor, Tickets;
    CountMore(registrations, k, steps, k);
    forall step | step in steps ensures Registration(k, step) in registrations + Registered(k, steps) {
      InRegistered(k, steps, step);
    }
    OwnSettled(registrations, k, r, steps);
    hide OwnTickets;
  }

  lemma {:induction false} RegisteredFor(request: Id, steps: seq<Step>)
    ensures forall i :: 0 <= i < |Registered(request, steps)| ==>
              Registered(request, steps)[i].request == request && Registered(request, steps)[i].step in steps
  {
    if steps != [] {
      RegisteredFor(request, steps[..|steps| - 1]);
    }
  }

  lemma DrainedOther(r: Request, i: Id, registrations: seq<Registration>, drained: set<nat>, c: nat)
    requires DrainingAt(r, i, registrations, drained) && c < |registrations| && registrations[c].request != i
    requires registrations[c].step.id in drained
    ensures DrainingAt(r, i, registrations[..c] + registrations[c + 1..], drained)
  {
    hide CountFor, Tickets, OwnTickets;
    CountRemove(registrations, c, i);
    RestHolds(r, i, registrations, drained, c);
    if !r.running {
      OwnRemains(r, i, registrations, c);
    }
  }

  lemma DrainedSelf(r: Request, k: Id, registrations: seq<Registration>, drained: set<nat>, c: nat)
    requires DrainingAt(r, k, registrations, drained) && c < |registrations| && registrations[c].request == k
    requires registrations[c].step.id in drained
    ensures !r.running && r.remaining > 0 && r.retired == 0
    ensures DrainingAt(Less(r), k, registrations[..c] + registrations[c + 1..], drained)
  {
    hide CountFor, Tickets, OwnTickets;
    CountPositive(registrations, c);
    CountRemove(registrations, c, k);
    RestHolds(r, k, registrations, drained, c);
    OwnRemains(r, k, registrations, c);
    OwnSame(r, Less(r), k, registrations[..c] + registrations[c + 1..]);
  }

  lemma OwnSame(r: Request, r': Request, k: Id, registrations: seq<Registration>)
    requires OwnTickets(r, k, registrations) && r'.routine == r.routine && r'.fed == r.fed
    ensures OwnTickets(r', k, registrations)
  {
    hide Tickets;
  }

  /** One registered step has drained. */
  lemma DrainedOne(requests: seq<Request>, registrations: seq<Registration>, drained: set<nat>, c: nat)
    requires Draining(requests, registrations, drained) && c < |registrations| && registrations[c].step.id in drained
    ensures registrations[c].request < |requests| && !requests[registrations[c].request].running
    ensures requests[registrations[c].request].remaining > 0 && requests[registrations[c].request].retired == 0
    ensures var k := registrations[c].request;
            var r := requests[k];
            && Draining(requests[k := Less(r)], registrations[..c] + registrations[c + 1..], drained)
            && Leased(requests[k := Less(r)]) == Leased(requests) - if r.remaining == 1 then 1 else 0
  {
    hide DrainingAt, CountFor, Leased;
    var k := registrations[c].request;
    var rest := registrations[..c] + registrations[c + 1..];
    assert DrainingAt(requests[k], k, registrations, drained);
    DrainedSelf(requests[k], k, registrations, drained, c);
    LeasedUpdate(requests, k, Less(requests[k]));
    var after := requests[k := Less(requests[k])];
    forall i | 0 <= i < |after| ensures DrainingAt(after[i], i, rest, drained) {
      assert DrainingAt(requests[i], i, registrations, drained);
      if i != k {
        DrainedOther(requests[i], i, registrations, drained, c);
      }
    }
  }

  lemma RestHolds(r: Request, k: Id, registrations: seq<Registration>, drained: set<nat>, c: nat)
    requires DrainingAt(r, k, registrations, drained) && c < |registrations| && registrations[c].step.id in drained
    ensures !r.running ==>
              forall step :: step in Tickets(r.routine, r.fed) ==>
                step.id in drained || Registration(k, step) in registrations[..c] + registrations[c + 1..]
  {
    var rest := registrations[..c] + registrations[c + 1..];
    forall step | step in Tickets(r.routine, r.fed) && Registration(k, step) in registrations
      ensures step.id in drained || Registration(k, step) in rest
    {
      var i :| 0 <= i < |registrations| && registrations[i] == Registration(k, step);
      if i != c {
        assert rest[if i < c then i else i - 1] == Registration(k, step);
      }
    }
    hide Tickets, CountFor;
  }

  /** Everything that holds of the queue's parts, whichever request is being worked on. */
  ghost predicate Sound(requests: seq<Request>, results: nat -> Result, head: Option<Id>, tail: Option<Id>,
                        published: seq<Id>,
                        callbacks: seq<Callback>, serial: nat, registrations: seq<Registration>, drained: set<nat>,
                        leases: nat)
  {
    && Placed(requests, results, |published|) && Linked(head, tail, |published|, |requests|) && InOrder(published)
    && Deliverable(requests, callbacks, serial) && Attended(requests)
    && Draining(requests, registrations, drained) && leases == Leased(requests)
  }

  class RuntimeRequests {
    /** What each step comes to, however it is asked. */
    const results: nat -> Result
    var requests: seq<Request>
    var head: Option<Id>
    var tail: Option<Id>
    var advancing: bool
    var leases: nat
    var callbacks: seq<Callback>
    var serial: nat
    var registrations: seq<Registration>
    var drained: set<nat>
    /** What the routines admit each time that one of them runs. */
    var admissions: seq<seq<Routine>>
    ghost var published: seq<Id>

    ghost predicate Consistent()
      reads this
    {
      Sound(requests, results, head, tail, published, callbacks, serial, registrations, drained, leases)
    }

    /** Between events nothing is advancing, and the first request waits for something. */
    ghost predicate Valid()
      reads this
    {
      Consistent() && !advancing && (head.Some? ==> requests[head.value].waiting.Some?)
    }

    constructor (results: nat -> Result, admissions: seq<seq<Routine>>)
      ensures Valid() && requests == [] && published == []
    {
      this.results := results;
      requests, head, tail, advancing, leases, callbacks, serial := [], None, None, false, 0, [], 0;
      registrations, drained, published := [], {}, [];
      this.admissions := admissions;
    }

    /** Asks for the result of the pending step, once. */
    method ObservePending(id: Id)
      requires id < |requests| && requests[id].waiting.Some? && Deliverable(requests, callbacks, serial)
      modifies `requests, `callbacks
      ensures Deliverable(requests, callbacks, serial)
      ensures requests == old(requests)[id := AttendedTo(old(requests)[id])]
      ensures callbacks == old(callbacks) + Asked(old(requests)[id], id)
    {
      var pending := requests[id].waiting.value;
      if pending.observed {
        assert requests == requests[id := requests[id].(waiting := Some(pending.(observed := true)))];
        return;
      }
      Observe(requests, callbacks, serial, id);
      requests := requests[id := requests[id].(waiting := Some(pending.(observed := true)))];
      callbacks := callbacks + [Callback(id, pending.serial, pending.step)];
      hide Deliverable;
    }

    /** Runs the routine of a request to its next step or to its end. Meanwhile it may admit other requests. */
    method Advance(id: Id)
      requires Consistent() && advancing && id == |published| < |requests|
      modifies `requests, `head, `tail, `advancing, `leases, `callbacks, `serial, `registrations, `admissions,
               `published
      ensures Consistent() && advancing && Persists(old(requests), requests)
      ensures Spent(old(admissions), |old(requests)|, admissions, |requests|)
      ensures published == old(published) || published == old(published) + [id]
      ensures published == old(published) ==> requests[id].waiting.Some?
      ensures published == old(published) && old(requests)[id].waiting.None? ==>
                requests[id].fed == Fed(old(requests)[id])
      decreases |admissions|, 2
    {
      hide Placed, Linked, InOrder, Deliverable, Attended, Draining, Leased, Next, Meaning, Tickets, Right, MustObserve,
           Registered, Persists;
      Working(requests, results, |published|, id);
      SameSelf(requests);
      if requests[id].waiting.Some? || !requests[id].running {
        return;
      }
      RunAdmissions();
      ghost var admitted := requests;
      SameAt(old(requests), admitted, id);
      Step(id);
      SameMore(old(requests), admitted, requests);
    }

    /** What the running routine comes to next. */
    method Step(id: Id)
      requires Consistent() && id == |published| < |requests| && requests[id].running && requests[id].waiting.None?
      modifies `requests, `head, `tail, `leases, `callbacks, `serial, `registrations, `published
      ensures Consistent() && Persists(old(requests), requests) && |requests| == |old(requests)|
      ensures published == old(published) || published == old(published) + [id]
      ensures published == old(published) ==> requests[id].waiting.Some? && requests[id].fed == Fed(old(requests)[id])
    {
      hide Placed, Linked, InOrder, Deliverable, Attended, Draining, Leased, Next, Meaning, Tickets, Right, MustObserve,
           Registered, Persists;
      var r := requests[id];
      match Next(r.routine, Fed(r))
      case Done(outcome) => Settle(id, outcome);
      case Yield(step) =>
        var observe := !step.ticket || !step.readable || r.completion.Observed? || r.asyncProgress;
        Yielding(requests, results, head, tail, published, callbacks, serial, registrations, drained, leases, id,
                 step, observe, serial + 1);
        requests := requests[id := Yielded(r, step, serial, false)];
        serial := serial + 1;
        if observe {
          ObservePending(id);
        }
        assert requests == old(requests)[id := Yielded(r, step, old(serial), observe)];
    }

    /**
     * The requests that a routine admits while it runs. The queue is being advanced already, so
     * that they only wait.
     */
    method RunAdmissions()
      requires Consistent() && advancing
      modifies `requests, `head, `tail, `advancing, `leases, `callbacks, `serial, `registrations, `admissions,
               `published
      ensures Consistent() && advancing && published == old(published) && Persists(old(requests), requests)
      ensures Behind(old(requests), requests) && Spent(old(admissions), |old(requests)|, admissions, |requests|)
      decreases |admissions|, 1
    {
      hide Sound, Persists, Behind;
      SameSelf(requests);
      BehindSelf(requests);
      if admissions == [] {
        return;
      }
      var routines := admissions[0];
      admissions := admissions[1..];
      for i := 0 to |routines|
        invariant Consistent() && advancing && published == old(published) && |admissions| < |old(admissions)|
        invariant Persists(old(requests), requests) && Behind(old(requests), requests)
      {
        ghost var before := requests;
        var id := Enqueue(routines[i]);
        SameMore(old(requests), before, requests);
        BehindMore(old(requests), before, requests);
      }
    }

    /** Publishes an outcome, moves the queue on, and leaves the undrained steps to retire the request. */
    method Settle(id: Id, outcome: Result)
      requires Consistent() && id == |published| < |requests|
      requires requests[id].running && requests[id].waiting.None?
      requires Next(requests[id].routine, Fed(requests[id])) == Done(outcome)
      modifies `requests, `head, `tail, `leases, `registrations, `published
      ensures Consistent() && Persists(old(requests), requests) && |requests| == |old(requests)|
      ensures published == old(published) + [id] && head == old(requests)[id].next
      ensures var drains := Undrained(old(requests)[id].drains, drained);
              && requests == old(requests)[id := Finished(old(requests)[id], outcome, |drains|)]
              && registrations == old(registrations) + Registered(id, drains)
    {
      hide Placed, Linked, InOrder, Deliverable, Attended, Draining, Leased, Next, Meaning, Tickets, Right,
           Registered, Undrained;
      var r := requests[id];
      var drains := Undrained(r.drains, drained);
      Settling(requests, results, head, tail, published, callbacks, serial, registrations, drained, leases, id,
               outcome);
      head := r.next;
      if head.None? {
        tail := None;
      }
      published := published + [id];
      registrations := registrations + Registered(id, drains);
      requests := requests[id := Finished(r, outcome, |drains|)];
      if drains == [] {
        leases := leases - 1;
      }
    }

    /**
     * Works on the first request until it waits, and on the ones behind it as they
     * come first. While that is being done another call returns at once.
     */
    method AdvanceRequests()
      requires Consistent()
      modifies `requests, `head, `tail, `advancing, `leases, `callbacks, `serial, `registrations, `admissions,
               `published
      ensures Consistent() && Persists(old(requests), requests) && old(published) <= published
      ensures Spent(old(admissions), |old(requests)|, admissions, |requests|)
      ensures old(advancing) ==> advancing && requests == old(requests) && published == old(published)
      ensures !old(advancing) ==> Valid()
      ensures !old(advancing) && published == old(published) && old(head).Some? ==>
                old(head).value < |requests|
                && (old(requests)[old(head).value].waiting.None? ==>
                      requests[old(head).value].fed == Fed(old(requests)[old(head).value]))
      decreases |admissions|, 3
    {
      hide Placed, InOrder, Deliverable, Attended, Draining, Leased, Persists;
      SameSelf(requests);
      if advancing {
        return;
      }
      advancing := true;
      while head.Some?
        invariant Consistent() && advancing && Persists(old(requests), requests)
        invariant Spent(old(admissions), |old(requests)|, admissions, |requests|)
        invariant old(published) <= published && (published == old(published) ==> requests == old(requests))
        decreases |admissions|, |requests| - |published|
      {
        ghost var before := requests;
        var current := head.value;
        Advance(current);
        SameMore(old(requests), before, requests);
        if head == Some(current) {
          break;
        }
      }
      advancing := false;
    }

    /** Feeds a result to the pending step that asked for it, unless that has been passed already. */
    method Resume(id: Id, pending: nat, input: Result)
      requires id < |requests| && !advancing && (head.Some? ==> head.value < |requests|)
      requires if Awaits(requests[id], pending)
               then Sound(requests[id := Resumed(requests[id], input)], results, head, tail, published, callbacks,
                          serial, registrations, drained, leases) && head == Some(id)
               else Valid()
      modifies `requests, `head, `tail, `advancing, `leases, `callbacks, `serial, `registrations, `admissions,
               `published
      ensures Valid() && Persists(old(requests), requests)
      ensures Spent(old(admissions), |old(requests)|, admissions, |requests|)
      ensures old(published) <= published
      ensures Awaits(old(requests)[id], pending) && published == old(published) ==>
                requests[id].fed == old(requests)[id].fed + [input]
      ensures !Awaits(old(requests)[id], pending) ==>
                requests == old(requests) && published == old(published) && callbacks == old(callbacks)
    {
      hide Sound, Persists;
      SameSelf(requests);
      if !Awaits(requests[id], pending) {
        return;
      }
      ResumedSame(requests, id, input);
      requests := requests[id := Resumed(requests[id], input)];
      ghost var resumed := requests;
      AdvanceRequests();
      SameMore(old(requests), resumed, requests);
    }

    /**
     * A result is delivered to the pending step that asked for it, which goes on
     * with it. If that step has been passed already nothing else happens.
     */
    method DeliverResult(c: nat)
      requires Valid() && c < |callbacks|
      modifies `requests, `head, `tail, `advancing, `leases, `callbacks, `serial, `registrations, `admissions,
               `published
      ensures Valid() && Persists(old(requests), requests)
      ensures Spent(old(admissions), |old(requests)|, admissions, |requests|)
      ensures old(published) <= published
      ensures var callback := old(callbacks)[c];
              && callback.request < |old(requests)| && callback.request < |requests|
              && if Awaits(old(requests)[callback.request], callback.serial)
                 then published == old(published) ==>
                        requests[callback.request].fed
                        == old(requests)[callback.request].fed + [results(callback.step.id)]
                 else requests == old(requests) && published == old(published)
                      && callbacks == old(callbacks)[..c] + old(callbacks)[c + 1..]
    {
      hide Placed, InOrder, Attended, Draining, Leased, Persists;
      var callback := callbacks[c];
      Delivering(requests, results, head, tail, published, callbacks, serial, registrations, drained, leases, c);
      callbacks := callbacks[..c] + callbacks[c + 1..];
      hide Deliverable, Sound;
      Resume(callback.request, callback.serial, results(callback.step.id));
      SameAt(old(requests), requests, callback.request);
    }

    /** Reads synchronously as long as the request waits for something readable. */
    method AdvanceSynchronously(id: Id) returns (terminal: bool)
      requires Valid() && id < |requests|
      modifies `requests, `head, `tail, `advancing, `leases, `callbacks, `serial, `registrations, `admissions,
               `published
      ensures Valid() && Persists(old(requests), requests)
      ensures Spent(old(admissions), |old(requests)|, admissions, |requests|)
      ensures old(published) <= published
      ensures terminal <==> id < |published|
      ensures !terminal && requests[id].waiting.Some? ==>
                !requests[id].waiting.value.step.ticket || !requests[id].waiting.value.step.readable
    {
      hide Placed, InOrder, Attended, Deliverable, Draining, Leased, Persists, Awaits, Next, Right, Sound;
      SameSelf(requests);
      while requests[id].waiting.Some?
        invariant id < |requests| && Valid() && Persists(old(requests), requests)
        invariant Spent(old(admissions), |old(requests)|, admissions, |requests|)
        invariant old(published) <= published
        decreases |admissions|, |requests| - |published|, requests[id].routine.limit - |requests[id].fed|
      {
        var pending := requests[id].waiting.value;
        if !pending.step.ticket || !pending.step.readable {
          break;
        }
        ghost var before, fed, log := requests, requests[id].fed, published;
        var input := results(pending.step.id);
        Reading(requests, results, head, tail, published, callbacks, serial, registrations, drained, leases, id);
        Resume(id, pending.serial, input);
        SameMore(old(requests), before, requests);
        SameAt(before, requests, id);
      }
      Terminal(requests, results, head, tail, published, callbacks, serial, registrations, drained, leases, id);
      return requests[id].outcome.Some?;
    }

    /** Drives readable predecessors until one has to be waited for. */
    method DriveSynchronously()
      requires Valid()
      modifies `requests, `head, `tail, `advancing, `leases, `callbacks, `serial, `registrations, `admissions,
               `published
      ensures Valid() && Persists(old(requests), requests)
      ensures Spent(old(admissions), |old(requests)|, admissions, |requests|)
      ensures old(published) <= published
      ensures head.Some? ==>
                !requests[head.value].waiting.value.step.ticket || !requests[head.value].waiting.value.step.readable
    {
      hide Placed, InOrder, Attended, Deliverable, Draining, Leased, Persists;
      SameSelf(requests);
      while head.Some?
        invariant Valid() && Persists(old(requests), requests)
        invariant Spent(old(admissions), |old(requests)|, admissions, |requests|)
        invariant old(published) <= published
        decreases |admissions|, |requests| - |published|
      {
        ghost var before := requests;
        var terminal := AdvanceSynchronously(head.value);
        SameMore(old(requests), before, requests);
        if !terminal {
          break;
        }
      }
    }

    /** Admits a request behind the others, and works on it if it is the first. */
    method Enqueue(routine: Routine) returns (id: Id)
      requires Consistent() && (!advancing ==> Valid())
      modifies `requests, `head, `tail, `advancing, `leases, `callbacks, `serial, `registrations, `admissions,
               `published
      ensures Consistent() && Persists(old(requests), requests) && old(published) <= published
      ensures id == |old(requests)| < |requests| && requests[id].routine == routine
      ensures !old(advancing) ==> Valid()
      ensures old(advancing) ==> advancing && published == old(published) && Behind(old(requests), requests)
      ensures |admissions| <= |old(admissions)| && (old(advancing) ==> |requests| == id + 1)
      decreases |admissions|, 4
    {
      hide Placed, InOrder, Attended, Deliverable, Draining, Leased, Persists, Behind;
      id := |requests|;
      Admitting(requests, results, head, tail, published, callbacks, serial, registrations, drained, leases, routine);
      AdmittedBehind(requests, tail, routine);
      leases := leases + 1;
      if tail.None? {
        head := Some(id);
      } else {
        requests := requests[tail.value := requests[tail.value].(next := Some(id))];
      }
      tail := Some(id);
      requests := requests + [Admitted(routine)];
      ghost var admitted := requests;
      AdvanceRequests();
      SameMore(old(requests), admitted, requests);
      SameAt(admitted, requests, id);
    }

    /** Mandatory work progresses even when nobody asks for its result. */
    method StartAsyncProgress(id: Id)
      requires Valid() && id < |requests|
      modifies `requests, `callbacks
      ensures Valid() && Persists(old(requests), requests) && |requests| == |old(requests)|
      ensures if old(requests)[id].running
              then requests == old(requests)[id := AttendedTo(old(requests)[id].(asyncProgress := true))]
                   && callbacks == old(callbacks) + Asked(old(requests)[id], id)
              else requests == old(requests) && callbacks == old(callbacks)
    {
      hide Placed, InOrder, Attended, Deliverable, Draining, Leased, Persists, Right;
      SameSelf(requests);
      if !requests[id].running {
        return;
      }
      Attending(requests, results, head, tail, published, callbacks, serial, registrations, drained, leases, id,
                requests[id].(asyncProgress := true));
      requests := requests[id := requests[id].(asyncProgress := true)];
      if requests[id].waiting.Some? {
        ObservePending(id);
      }
      assert requests == old(requests)[id := AttendedTo(old(requests)[id].(asyncProgress := true))];
    }

    /** A promise of the outcome: resolved already, or to be resolved when the request settles. */
    method AsPromise(id: Id) returns (completion: Completion)
      requires Valid() && id < |requests|
      modifies `requests, `callbacks
      ensures Valid() && Persists(old(requests), requests) && |requests| == |old(requests)|
      ensures completion == if id < |published| then Resolved(Meaning(requests[id].routine, [], results)) else Observed
      ensures id >= |published| ==> requests[id].completion == Observed
      ensures if id < |published| then requests == old(requests) && callbacks == old(callbacks)
              else requests == old(requests)[id := AttendedTo(old(requests)[id].(completion := Observed))]
                   && callbacks == old(callbacks) + Asked(old(requests)[id], id)
    {
      hide Placed, InOrder, Attended, Deliverable, Draining, Leased, Persists, Meaning;
      SameSelf(requests);
      Terminal(requests, results, head, tail, published, callbacks, serial, registrations, drained, leases, id);
      hide Right;
      if requests[id].outcome.Some? {
        return Resolved(requests[id].outcome.value);
      }
      Attending(requests, results, head, tail, published, callbacks, serial, registrations, drained, leases, id,
                requests[id].(completion := Observed));
      requests := requests[id := requests[id].(completion := Observed)];
      if requests[id].waiting.Some? {
        ObservePending(id);
      }
      assert requests == old(requests)[id := AttendedTo(old(requests)[id].(completion := Observed))];
      completion := Observed;
    }

    /** A step drains. */
    method Drain(step: nat)
      requires Valid()
      modifies `drained
      ensures Valid() && drained == old(drained) + {step}
    {
      hide Placed, InOrder, Attended, Deliverable, Leased;
      MoreDrained(requests, registrations, drained, drained + {step});
      drained := drained + {step};
    }

    /** A registered request is told that its step has drained, and retires with the last one. */
    method DeliverDrain(c: nat)
      requires Valid() && c < |registrations| && registrations[c].step.id in drained
      modifies `requests, `registrations, `leases
      ensures Valid() && Persists(old(requests), requests) && |requests| == |old(requests)|
      ensures registrations == old(registrations)[..c] + old(registrations)[c + 1..]
      ensures var k := old(registrations)[c].request;
              && k < |old(requests)| && old(requests)[k].remaining > 0
              && requests == old(requests)[k := Less(old(requests)[k])]
    {
      hide Placed, InOrder, Attended, Deliverable, Draining, Leased, Persists, Right;
      var k := registrations[c].request;
      Drains(requests, results, head, tail, published, callbacks, serial, registrations, drained, leases, c);
      var r := requests[k];
      registrations := registrations[..c] + registrations[c + 1..];
      requests := requests[k := Less(r)];
      if r.remaining == 1 {
        leases := leases - 1;
      }
    }

    /**
     * All results that have been asked for are delivered, in any order, and those
     * asked for meanwhile. That ends, and publishes every request that is wanted
     * and has only wanted ones before it.
     */
    method DeliverResults()
      requires Valid()
      modifies `requests, `head, `tail, `advancing, `leases, `callbacks, `serial, `registrations, `admissions,
               `published
      ensures Valid() && Persists(old(requests), requests) && old(published) <= published && callbacks == []
      ensures head.Some? ==> !MustObserve(requests[head.value])
      ensures forall k :: 0 <= k < |old(requests)| && AllWanted(old(requests), |old(published)|, k) ==> k < |published|
    {
      hide Sound, Persists, AllWanted, Next, MustObserve;
      SameSelf(requests);
      while callbacks != []
        invariant Valid() && Persists(old(requests), requests) && old(published) <= published
        decreases |admissions|, |requests| - |published|, Left(requests, head), |callbacks|
      {
        ghost var before := requests;
        var c: nat :| c < |callbacks|;
        ghost var id := callbacks[c].request;
        HeadIs(requests, results, head, tail, published, callbacks, serial, registrations, drained, leases);
        Pends(requests, results, head, tail, published, callbacks, serial, registrations, drained, leases, c);
        DeliverResult(c);
        SameMore(old(requests), before, requests);
        SameAt(before, requests, id);
        HeadIs(requests, results, head, tail, published, callbacks, serial, registrations, drained, leases);
      }
      HeadIs(requests, results, head, tail, published, callbacks, serial, registrations, drained, leases);
      NothingAsked(requests, results, head, tail, published, callbacks, serial, registrations, drained, leases,
                   old(requests), |old(published)|);
    }

    /** Every drained ticket is told, in any order. Then exactly what has drained completely has retired. */
    method DeliverDrains()
      requires Valid()
      modifies `requests, `registrations, `leases
      ensures Valid() && Persists(old(requests), requests) && |requests| == |old(requests)|
      ensures forall k :: 0 <= k < |published| ==> (requests[k].retired == 1 <==> AllDrained(requests[k], drained))
    {
      hide Sound, Persists, AllDrained, Tickets;
      SameSelf(requests);
      while exists c :: 0 <= c < |registrations| && registrations[c].step.id in drained
        invariant Valid() && Persists(old(requests), requests) && |requests| == |old(requests)|
        decreases |registrations|
      {
        ghost var before := requests;
        var c: nat :| c < |registrations| && registrations[c].step.id in drained;
        DeliverDrain(c);
        SameMore(old(requests), before, requests);
      }
      HeadIs(requests, results, head, tail, published, callbacks, serial, registrations, drained, leases);
      forall k | 0 <= k < |published| ensures requests[k].retired == 1 <==> AllDrained(requests[k], drained) {
        NothingToTell(requests, results, head, tail, published, callbacks, serial, registrations, drained, leases, k);
      }
    }
  }

  /** Each run of a routine uses up an entry, and only that makes requests more. */
  predicate Spent(before: seq<seq<Routine>>, size: nat, after: seq<seq<Routine>>, size': nat) {
    |after| < |before| || (|after| == |before| && size' == size)
  }

  /** The requests there were are as they were, but for what they are linked to. */
  ghost predicate Behind(before: seq<Request>, after: seq<Request>) {
    |before| <= |after| && forall k :: 0 <= k < |before| ==> after[k] == before[k].(next := after[k].next)
  }

  lemma BehindSelf(requests: seq<Request>)
    ensures Behind(requests, requests)
  {
  }

  lemma BehindMore(a: seq<Request>, b: seq<Request>, c: seq<Request>)
    requires Behind(a, b) && Behind(b, c)
    ensures Behind(a, c)
  {
  }

  lemma AdmittedBehind(requests: seq<Request>, tail: Option<Id>, routine: Routine)
    requires tail.Some? ==> tail.value < |requests|
    ensures var n := Some(|requests|);
            var linked := if tail.Some? then requests[tail.value := requests[tail.value].(next := n)] else requests;
            Behind(requests, linked + [Admitted(routine)])
  {
  }

  /** Every request from first to k is wanted. */
  predicate AllWanted(requests: seq<Request>, first: nat, k: nat)
    requires k < |requests|
  {
    forall j :: first <= j <= k ==> Wanted(requests[j])
  }

  predicate AllDrained(r: Request, drained: set<nat>) {
    forall step :: step in Tickets(r.routine, r.fed) ==> step.id in drained
  }

  /** How many more steps the first request can yield. */
  function Left(requests: seq<Request>, head: Option<Id>): nat {
    if head.Some? && head.value < |requests| && |requests[head.value].fed| <= requests[head.value].routine.limit
    then requests[head.value].routine.limit - |requests[head.value].fed|
    else 0
  }

  lemma HeadIs(requests: seq<Request>, results: nat -> Result, head: Option<Id>, tail: Option<Id>, published: seq<Id>,
               callbacks: seq<Callback>, serial: nat, registrations: seq<Registration>, drained: set<nat>, leases: nat)
    requires Sound(requests, results, head, tail, published, callbacks, serial, registrations, drained, leases)
    ensures |published| <= |requests| && head == if |published| < |requests| then Some(|published|) else None
    ensures head.Some? ==> requests[head.value].running && Right(requests[head.value], results)
  {
    if head.Some? {
      assert PlacedAt(requests, results, |published|, head.value);
    }
    hide Right, Deliverable, Attended, Draining, Leased;
  }

  /** A step that is still waited for is that of the first request, which has not come to its end. */
  lemma Pends(requests: seq<Request>, results: nat -> Result, head: Option<Id>, tail: Option<Id>, published: seq<Id>,
              callbacks: seq<Callback>, serial: nat, registrations: seq<Registration>, drained: set<nat>, leases: nat,
              c: nat)
    requires Sound(requests, results, head, tail, published, callbacks, serial, registrations, drained, leases)
    requires c < |callbacks|
    ensures var callback := callbacks[c];
            && callback.request < |requests|
            && (Awaits(requests[callback.request], callback.serial) ==>
                  && head == Some(callback.request)
                  && |requests[callback.request].fed| < requests[callback.request].routine.limit)
  {
    hide Placed, InOrder, Deliverable, Attended, Draining, Leased, Right;
    CallbackInside(requests, callbacks, serial, c);
    HeadIs(requests, results, head, tail, published, callbacks, serial, registrations, drained, leases);
    if Awaits(requests[callbacks[c].request], callbacks[c].serial) {
      Waits(requests, results, |published|, callbacks[c].request);
    }
  }

  /** With nothing more to deliver the first request waits for something that nobody wants. */
  lemma NothingAsked(requests: seq<Request>, results: nat -> Result, head: Option<Id>, tail: Option<Id>,
                     published: seq<Id>, callbacks: seq<Callback>, serial: nat, registrations: seq<Registration>,
                     drained: set<nat>, leases: nat, before: seq<Request>, first: nat)
    requires Sound(requests, results, head, tail, published, callbacks, serial, registrations, drained, leases)
    requires callbacks == [] && (head.Some? ==> head.value < |requests| && requests[head.value].waiting.Some?)
    requires Persists(before, requests) && first <= |published|
    ensures head.Some? ==> !MustObserve(requests[head.value])
    ensures forall k :: 0 <= k < |before| && AllWanted(before, first, k) ==> k < |published|
  {
    hide Placed, InOrder, Draining, Leased, Meaning, Tickets, Next;
    HeadIs(requests, results, head, tail, published, callbacks, serial, registrations, drained, leases);
    if head.Some? {
      assert DeliverableAt(requests[head.value], head.value, callbacks, serial) && AttendedAt(requests[head.value]);
    }
    forall k | 0 <= k < |before| ensures AllWanted(before, first, k) ==> k < |published| {
      if k >= |published| {
        assert !Wanted(requests[|published|]) && !Wanted(before[|published|]);
      }
    }
  }

  lemma {:induction false} CountedIs(registrations: seq<Registration>, k: Id) returns (i: nat)
    requires CountFor(registrations, k) > 0
    ensures i < |registrations| && registrations[i].request == k
  {
    var last := |registrations| - 1;
    if registrations[last].request == k {
      i := last;
    } else {
      i := CountedIs(registrations[..last], k);
    }
  }

  /** With nothing more to tell exactly those have retired whose tickets have all drained. */
  lemma NothingToTell(requests: seq<Request>, results: nat -> Result, head: Option<Id>, tail: Option<Id>,
                      published: seq<Id>, callbacks: seq<Callback>, serial: nat, registrations: seq<Registration>,
                      drained: set<nat>, leases: nat, k: nat)
    requires Sound(requests, results, head, tail, published, callbacks, serial, registrations, drained, leases)
    requires forall c :: 0 <= c < |registrations| ==> registrations[c].step.id !in drained
    requires k < |published|
    ensures k < |requests| && (requests[k].retired == 1 <==> AllDrained(requests[k], drained))
  {
    hide InOrder, Deliverable, Attended, Leased, Meaning, Tickets, Next, Right;
    assert PlacedAt(requests, results, |published|, k);
    assert DrainingAt(requests[k], k, registrations, drained);
    RetiredDrained(requests[k], k, registrations, drained);
    if requests[k].remaining > 0 {
      var i := CountedIs(registrations, k);
    }
    hide Placed, CountFor;
  }

  lemma Yielding(requests: seq<Request>, results: nat -> Result, head: Option<Id>, tail: Option<Id>, published: seq<Id>,
                 callbacks: seq<Callback>, serial: nat, registrations: seq<Registration>, drained: set<nat>,
                 leases: nat, id: Id, step: Step, observe: bool, next: nat)
    requires Sound(requests, results, head, tail, published, callbacks, serial, registrations, drained, leases)
    requires id == |published| < |requests| && requests[id].running && requests[id].waiting.None? && next == serial + 1
    requires Next(requests[id].routine, Fed(requests[id])) == Yield(step)
    requires observe == (!step.ticket || !step.readable || requests[id].completion.Observed?
                         || requests[id].asyncProgress)
    ensures var after := requests[id := Yielded(requests[id], step, serial, observe)];
            && Placed(after, results, |published|) && Attended(after) && Draining(after, registrations, drained)
            && Leased(after) == Leased(requests) && Persists(requests, after)
    ensures Deliverable(requests[id := Yielded(requests[id], step, serial, false)], callbacks, next)
  {
    hide Placed, Linked, InOrder, Deliverable, Attended, Draining, Leased, Next, Meaning, Tickets, Right;
    var r := requests[id];
    var r' := Yielded(r, step, serial, observe);
    Working(requests, results, |published|, id);
    YieldedRight(r, results, step, serial, observe);
    PlacedUpdate(requests, results, |published|, r');
    AttendedTouched(requests, id, r');
    DrainingTouched(requests, registrations, drained, id, r');
    NewPending(requests, callbacks, serial, id, Yielded(r, step, serial, false), next);
  }

  lemma Settling(requests: seq<Request>, results: nat -> Result, head: Option<Id>, tail: Option<Id>, published: seq<Id>,
                 callbacks: seq<Callback>, serial: nat, registrations: seq<Registration>, drained: set<nat>,
                 leases: nat, id: Id, outcome: Result)
    requires Sound(requests, results, head, tail, published, callbacks, serial, registrations, drained, leases)
    requires id == |published| < |requests| && requests[id].running && requests[id].waiting.None?
    requires Next(requests[id].routine, Fed(requests[id])) == Done(outcome)
    ensures var drains := Undrained(requests[id].drains, drained);
            var after := requests[id := Finished(requests[id], outcome, |drains|)];
            var next := requests[id].next;
            && leases >= (if drains == [] then 1 else 0)
            && Sound(after, results, next, if next.None? then None else tail, published + [id], callbacks, serial,
                     registrations + Registered(id, drains), drained, leases - if drains == [] then 1 else 0)
            && Persists(requests, after)
  {
    hide Placed, InOrder, Deliverable, Attended, Draining, Leased, Next, Meaning, Tickets, Right, Undrained;
    var r := requests[id];
    var drains := Undrained(r.drains, drained);
    var r' := Finished(r, outcome, |drains|);
    Working(requests, results, |published|, id);
    FedRight(r, results);
    SettledRight(r, results, outcome);
    FinishedRight(Settled(r, outcome), results, r');
    PlacedSettled(requests, results, |published|, r', |published| + 1);
    DeliverableTouched(requests, callbacks, serial, id, r');
    AttendedTouched(requests, id, r');
    SettleDraining(requests, registrations, drained, id, r', drains);
    PublishedNext(published, id);
  }

  lemma PublishedNext(published: seq<Id>, id: Id)
    requires InOrder(published) && id == |published|
    ensures InOrder(published + [id])
  {
  }

  lemma FinishedRight(r: Request, results: nat -> Result, r': Request)
    requires Right(r, results) && !r.running
    requires r' == r.(next := r'.next, remaining := r'.remaining, retired := r'.retired)
    ensures Right(r', results)
  {
    hide Meaning, Tickets, Next;
  }

  /** The settled request, unlinked, counting the steps it still has to wait for. */
  function Finished(r: Request, outcome: Result, remaining: nat): Request {
    Settled(r, outcome).(next := None, remaining := remaining, retired := if remaining == 0 then 1 else 0)
  }

  lemma SameSelf(requests: seq<Request>)
    ensures Persists(requests, requests)
  {
  }

  /** The request being worked on is running. */
  lemma Working(requests: seq<Request>, results: nat -> Result, head: nat, id: Id)
    requires Placed(requests, results, head) && id == head < |requests|
    ensures requests[id].running && Right(requests[id], results)
    ensures requests[id].next == if id + 1 < |requests| then Some(id + 1) else None
  {
    assert PlacedAt(requests, results, head, id);
    hide Right;
  }

  /** The request is waiting for the step with this serial. */
  predicate Awaits(r: Request, serial: nat) { r.waiting.Some? && r.waiting.value.serial == serial }

  function Resumed(r: Request, input: Result): Request { r.(waiting := None, input := Some(input)) }

  function Less(r: Request): Request
    requires r.remaining > 0
  {
    r.(remaining := r.remaining - 1, retired := if r.remaining == 1 then 1 else 0)
  }

  /** What is asked for when the pending step is observed for the first time. */
  function Asked(r: Request, id: Id): seq<Callback> {
    if r.waiting.Some? && !r.waiting.value.observed then [Callback(id, r.waiting.value.serial, r.waiting.value.step)]
    else []
  }

  function AttendedTo(r: Request): Request {
    if r.waiting.Some? then r.(waiting := Some(r.waiting.value.(observed := true))) else r
  }

  lemma SameMore(a: seq<Request>, b: seq<Request>, c: seq<Request>)
    requires Persists(a, b) && Persists(b, c)
    ensures Persists(a, c)
  {
  }

  lemma SameAt(a: seq<Request>, b: seq<Request>, k: nat)
    requires Persists(a, b) && k < |a|
    ensures k < |b| && a[k].routine == b[k].routine
  {
  }

  lemma ResumedSame(requests: seq<Request>, id: Id, input: Result)
    requires id < |requests|
    ensures Persists(requests, requests[id := Resumed(requests[id], input)])
  {
  }

  /** Only the first request waits. */
  lemma Waits(requests: seq<Request>, results: nat -> Result, head: nat, id: Id)
    requires Placed(requests, results, head) && id < |requests| && requests[id].waiting.Some?
    ensures id == head && Right(requests[id], results) && requests[id].running
    ensures Next(requests[id].routine, requests[id].fed) == Yield(requests[id].waiting.value.step)
  {
    assert PlacedAt(requests, results, head, id);
    hide Meaning, Tickets, Next;
  }

  lemma ResumedRight(r: Request, results: nat -> Result)
    requires Right(r, results) && r.waiting.Some?
    ensures Right(Resumed(r, results(r.waiting.value.step.id)), results)
  {
    hide Meaning, Tickets, Next;
  }

  lemma Resuming(requests: seq<Request>, results: nat -> Result, head: Option<Id>, tail: Option<Id>, published: seq<Id>,
                 callbacks: seq<Callback>, callbacks': seq<Callback>, serial: nat, registrations: seq<Registration>,
                 drained: set<nat>, leases: nat, id: Id, input: Result)
    requires Sound(requests, results, head, tail, published, callbacks, serial, registrations, drained, leases)
    requires id < |requests| && requests[id].waiting.Some? && input == results(requests[id].waiting.value.step.id)
    requires Deliverable(requests[id := Resumed(requests[id], input)], callbacks', serial)
    ensures Sound(requests[id := Resumed(requests[id], input)], results, head, tail, published, callbacks', serial,
                  registrations, drained, leases)
    ensures head == Some(id)
  {
    hide Placed, InOrder, Deliverable, Attended, Draining, Leased, Next, Meaning, Tickets, Right;
    var r := requests[id];
    var r' := Resumed(r, input);
    Waits(requests, results, |published|, id);
    ResumedRight(r, results);
    PlacedUpdate(requests, results, |published|, r');
    AttendedTouched(requests, id, r');
    DrainingTouched(requests, registrations, drained, id, r');
  }

  /** The result of the pending step is read where it waits. */
  lemma Reading(requests: seq<Request>, results: nat -> Result, head: Option<Id>, tail: Option<Id>, published: seq<Id>,
                callbacks: seq<Callback>, serial: nat, registrations: seq<Registration>, drained: set<nat>,
                leases: nat, id: Id)
    requires Sound(requests, results, head, tail, published, callbacks, serial, registrations, drained, leases)
    requires id < |requests| && requests[id].waiting.Some?
    ensures var pending := requests[id].waiting.value;
            && Awaits(requests[id], pending.serial)
            && Sound(requests[id := Resumed(requests[id], results(pending.step.id))], results, head, tail, published,
                     callbacks, serial, registrations, drained, leases)
            && head == Some(id) && id == |published| && |requests[id].fed| < requests[id].routine.limit
  {
    hide Placed, InOrder, Deliverable, Attended, Draining, Leased, Meaning, Tickets, Right;
    var r' := Resumed(requests[id], results(requests[id].waiting.value.step.id));
    Waits(requests, results, |published|, id);
    DeliverableTouched(requests, callbacks, serial, id, r');
    Resuming(requests, results, head, tail, published, callbacks, callbacks, serial, registrations, drained, leases, id,
             results(requests[id].waiting.value.step.id));
  }

  lemma Delivering(requests: seq<Request>, results: nat -> Result, head: Option<Id>, tail: Option<Id>,
                   published: seq<Id>,
                   callbacks: seq<Callback>, serial: nat, registrations: seq<Registration>, drained: set<nat>,
                   leases: nat, c: nat)
    requires Sound(requests, results, head, tail, published, callbacks, serial, registrations, drained, leases)
    requires c < |callbacks|
    ensures callbacks[c].request < |requests|
    ensures var callback := callbacks[c];
            var id := callback.request;
            var input := results(callback.step.id);
            var rest := callbacks[..c] + callbacks[c + 1..];
            if Awaits(requests[id], callback.serial)
            then Sound(requests[id := Resumed(requests[id], input)], results, head, tail, published, rest, serial,
                       registrations, drained, leases) && head == Some(id)
            else Sound(requests, results, head, tail, published, rest, serial, registrations, drained, leases)
  {
    hide Placed, InOrder, Deliverable, Attended, Draining, Leased, Next, Meaning, Tickets, Right;
    CallbackInside(requests, callbacks, serial, c);
    var callback := callbacks[c];
    var input := results(callback.step.id);
    Deliver(requests, callbacks, serial, c, Resumed(requests[callback.request], input));
    if Awaits(requests[callback.request], callback.serial) {
      Resuming(requests, results, head, tail, published, callbacks, callbacks[..c] + callbacks[c + 1..], serial,
               registrations, drained, leases, callback.request, input);
    }
  }

  lemma CallbackInside(requests: seq<Request>, callbacks: seq<Callback>, serial: nat, c: nat)
    requires Deliverable(requests, callbacks, serial) && c < |callbacks|
    ensures callbacks[c].request < |requests|
  {
  }

  /** A request is terminal exactly when it has been published, and then it has come to what its routine means. */
  lemma Terminal(requests: seq<Request>, results: nat -> Result, head: Option<Id>, tail: Option<Id>, published: seq<Id>,
                 callbacks: seq<Callback>, serial: nat, registrations: seq<Registration>, drained: set<nat>,
                 leases: nat, id: Id)
    requires Sound(requests, results, head, tail, published, callbacks, serial, registrations, drained, leases)
    requires id < |requests|
    ensures requests[id].outcome.Some? <==> id < |published|
    ensures id < |published| ==>
              published[id] == id && requests[id].outcome == Some(Meaning(requests[id].routine, [], results))
    ensures id < |published| ==> requests[id].completion != Observed
    ensures Right(requests[id], results)
  {
    assert PlacedAt(requests, results, |published|, id);
    hide Meaning, Tickets, Next, Deliverable, Attended, Draining, Leased;
  }

  lemma Admitting(requests: seq<Request>, results: nat -> Result, head: Option<Id>, tail: Option<Id>,
                  published: seq<Id>,
                  callbacks: seq<Callback>, serial: nat, registrations: seq<Registration>, drained: set<nat>,
                  leases: nat, routine: Routine)
    requires Sound(requests, results, head, tail, published, callbacks, serial, registrations, drained, leases)
    ensures tail.Some? ==> tail.value < |requests|
    ensures var n := |requests|;
            var linked := if tail.Some? then requests[tail.value := requests[tail.value].(next := Some(n))]
                          else requests;
            && Sound(linked + [Admitted(routine)], results, if tail.None? then Some(n) else head, Some(n), published,
                     callbacks, serial, registrations, drained, leases + 1)
            && Persists(requests, linked + [Admitted(routine)])
  {
    hide Placed, InOrder, Deliverable, Attended, Draining, Leased, Next, Meaning, Tickets, Right;
    var n := |requests|;
    var linked := if tail.Some? then requests[n - 1 := requests[n - 1].(next := Some(n))] else requests;
    PlacedInside(requests, results, |published|);
    PlacedAdmitted(requests, results, |published|, routine);
    if tail.Some? {
      var r := requests[n - 1].(next := Some(n));
      LinkedDeliverable(requests, callbacks, serial, n - 1, r);
      DeliverableTouched(requests, callbacks, serial, n - 1, r);
      LinkedAttended(requests, n - 1, r);
      AttendedTouched(requests, n - 1, r);
      DrainingTouched(requests, registrations, drained, n - 1, r);
    }
    AddedRequest(linked, Admitted(routine), callbacks, serial, registrations, drained);
  }

  lemma PlacedInside(requests: seq<Request>, results: nat -> Result, head: nat)
    requires Placed(requests, results, head)
    ensures head <= |requests|
  {
  }

  lemma LinkedDeliverable(requests: seq<Request>, callbacks: seq<Callback>, serial: nat, k: nat, r: Request)
    requires Deliverable(requests, callbacks, serial) && k < |requests| && r.waiting == requests[k].waiting
    ensures DeliverableAt(r, k, callbacks, serial)
  {
    assert DeliverableAt(requests[k], k, callbacks, serial);
  }

  lemma LinkedAttended(requests: seq<Request>, k: nat, r: Request)
    requires Attended(requests) && k < |requests| && r == requests[k].(next := r.next)
    ensures AttendedAt(r)
  {
    assert AttendedAt(requests[k]);
  }

  /** A request that somebody wants to progress: its pending step is observed. */
  lemma Attending(requests: seq<Request>, results: nat -> Result, head: Option<Id>, tail: Option<Id>,
                  published: seq<Id>,
                  callbacks: seq<Callback>, serial: nat, registrations: seq<Registration>, drained: set<nat>,
                  leases: nat, id: Id, r: Request)
    requires Sound(requests, results, head, tail, published, callbacks, serial, registrations, drained, leases)
    requires id < |requests| && requests[id].running
    requires r == requests[id].(asyncProgress := true) || r == requests[id].(completion := Observed)
    ensures var after := requests[id := AttendedTo(r)];
            && Placed(after, results, |published|) && Attended(after) && Draining(after, registrations, drained)
            && Leased(after) == Leased(requests) && Persists(requests, after)
    ensures Deliverable(requests[id := r], callbacks, serial)
  {
    hide Placed, InOrder, Deliverable, Attended, Draining, Leased, Next, Meaning, Tickets, Right;
    Terminal(requests, results, head, tail, published, callbacks, serial, registrations, drained, leases, id);
    AttendedRight(requests[id], results, r);
    PlacedTouched(requests, results, |published|, id, AttendedTo(r));
    AttendedTouched(requests, id, AttendedTo(r));
    DrainingTouched(requests, registrations, drained, id, AttendedTo(r));
    LinkedDeliverable(requests, callbacks, serial, id, r);
    DeliverableTouched(requests, callbacks, serial, id, r);
  }

  lemma AttendedRight(r: Request, results: nat -> Result, r': Request)
    requires Right(r, results) && r.running
    requires r' == r.(asyncProgress := true) || r' == r.(completion := Observed)
    ensures Right(AttendedTo(r'), results) && AttendedAt(AttendedTo(r')) && (Fresh(r) ==> Fresh(AttendedTo(r')))
  {
    hide Meaning, Tickets, Next;
  }

  lemma MoreDrained(requests: seq<Request>, registrations: seq<Registration>, drained: set<nat>, more: set<nat>)
    requires Draining(requests, registrations, drained) && drained <= more
    ensures Draining(requests, registrations, more)
  {
    forall k | 0 <= k < |requests| ensures DrainingAt(requests[k], k, registrations, more) {
      assert DrainingAt(requests[k], k, registrations, drained);
    }
    hide Tickets, CountFor;
  }

  lemma Drains(requests: seq<Request>, results: nat -> Result, head: Option<Id>, tail: Option<Id>, published: seq<Id>,
               callbacks: seq<Callback>, serial: nat, registrations: seq<Registration>, drained: set<nat>,
               leases: nat, c: nat)
    requires Sound(requests, results, head, tail, published, callbacks, serial, registrations, drained, leases)
    requires c < |registrations| && registrations[c].step.id in drained
    ensures var k := registrations[c].request;
            && k < |requests| && requests[k].remaining > 0
            && var r := requests[k];
               var after := requests[k := Less(r)];
            && leases >= (if r.remaining == 1 then 1 else 0)
            && Sound(after, results, head, tail, published, callbacks, serial,
                     registrations[..c] + registrations[c + 1..], drained, leases - if r.remaining == 1 then 1 else 0)
            && Persists(requests, after) && after[k].waiting == r.waiting
            && (forall i :: 0 <= i < |requests| ==> after[i].waiting == requests[i].waiting)
  {
    hide Placed, InOrder, Deliverable, Attended, Draining, Leased, Next, Meaning, Tickets, Right;
    DrainedOne(requests, registrations, drained, c);
    var k := registrations[c].request;
    Terminal(requests, results, head, tail, published, callbacks, serial, registrations, drained, leases, k);
    LessRight(requests[k], results);
    PlacedTouched(requests, results, |published|, k, Less(requests[k]));
    LinkedDeliverable(requests, callbacks, serial, k, Less(requests[k]));
    DeliverableTouched(requests, callbacks, serial, k, Less(requests[k]));
    AttendedTouched(requests, k, Less(requests[k]));
  }

  lemma LessRight(r: Request, results: nat -> Result)
    requires Right(r, results) && !r.running && r.remaining > 0
    ensures Right(Less(r), results) && AttendedAt(Less(r)) && !Fresh(r) && !r.waiting.Some?
  {
    hide Meaning, Tickets, Next;
  }
}
