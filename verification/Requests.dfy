/**
 * Execution requests, on values. A request runs a finite routine that yields
 * steps and is fed their results; what it comes to depends only on the routine
 * and on the results.
 */
module Requests {
  import opened Options

  type Id = nat

  datatype Result = Success(value: int) | Failure(error: int)

  /** A promise, or a ticket that also drains and may be read synchronously. */
  datatype Step = Step(id: nat, ticket: bool, readable: bool)

  datatype Response = Done(outcome: Result) | Yield(step: Step)

  /** What a generator does after each sequence of inputs; after limit inputs it has finished. */
  datatype Routine = Routine(limit: nat, respond: seq<Result> -> Response, finish: seq<Result> -> Result)

  function Next(routine: Routine, fed: seq<Result>): Response {
    if |fed| < routine.limit then routine.respond(fed) else Done(routine.finish(fed))
  }

  /** The outcome of a routine that is fed the result of every step it yields. */
  function Meaning(routine: Routine, fed: seq<Result>, results: nat -> Result): Result
    decreases if |fed| < routine.limit then routine.limit - |fed| else 0
  {
    match Next(routine, fed)
    case Done(outcome) => outcome
    case Yield(step) => Meaning(routine, fed + [results(step.id)], results)
  }

  /** The tickets that it has yielded while being fed these inputs. */
  function Tickets(routine: Routine, fed: seq<Result>): seq<Step> {
    if fed == [] then []
    else
      var before := fed[..|fed| - 1];
      Tickets(routine, before) + Ticket(Next(routine, before))
  }

  function Ticket(response: Response): seq<Step> {
    if response.Yield? && response.step.ticket then [response.step] else []
  }

  datatype Pending = Pending(serial: nat, step: Step, observed: bool)

  datatype Completion = Unobserved | Observed | Resolved(result: Result)

  datatype Request = Request(
    routine: Routine, fed: seq<Result>, running: bool, next: Option<Id>, drains: seq<Step>, waiting: Option<Pending>,
    input: Option<Result>, outcome: Option<Result>, completion: Completion, asyncProgress: bool, remaining: nat,
    retired: nat)

  function Admitted(routine: Routine): Request {
    Request(routine, [], true, None, [], None, None, None, Unobserved, false, 0, 0)
  }

  predicate Fresh(r: Request) { r.running && r.fed == [] && r.waiting.None? && r.input.None? && r.drains == [] }

  /** What is still to come of the request is what was to come of it at first. */
  predicate Right(r: Request, results: nat -> Result) {
    && (r.running <==> r.outcome.None?)
    && (r.running ==> Meaning(r.routine, r.fed, results) == Meaning(r.routine, [], results) && r.retired == 0)
    && (r.outcome.Some? ==> r.outcome.value == Meaning(r.routine, [], results) && r.waiting.None? && r.input.None?)
    && (r.waiting.Some? ==> r.input.None? && Next(r.routine, r.fed) == Yield(r.waiting.value.step))
    && (r.input.Some? ==>
          && Next(r.routine, r.fed).Yield? && r.input.value == results(Next(r.routine, r.fed).step.id)
          && r.drains == Tickets(r.routine, r.fed) + Ticket(Next(r.routine, r.fed)))
    && (r.waiting.Some? ==> r.drains == Tickets(r.routine, r.fed) + Ticket(Next(r.routine, r.fed)))
    && (r.running && r.waiting.None? && r.input.None? ==> Fresh(r))
    && (r.completion.Resolved? ==> r.outcome == Some(r.completion.result))
    && (r.completion.Observed? ==> r.running)
  }

  /** The request with the input that it resumes with. */
  function Fed(r: Request): seq<Result> { if r.input.Some? then r.fed + [r.input.value] else r.fed }

  /** Feeding the right result leaves what is to come. */
  lemma FedRight(r: Request, results: nat -> Result)
    requires Right(r, results) && r.running && r.waiting.None?
    ensures Meaning(r.routine, Fed(r), results) == Meaning(r.routine, [], results)
    ensures r.drains == Tickets(r.routine, Fed(r))
  {
    if r.input.Some? {
      var fed := Fed(r);
      assert fed[..|fed| - 1] == r.fed;
    }
  }

  /** The request after yielding a step. */
  function Yielded(r: Request, step: Step, serial: nat, observed: bool): Request {
    r.(fed := Fed(r), input := None, waiting := Some(Pending(serial, step, observed)),
       drains := if step.ticket then r.drains + [step] else r.drains)
  }

  lemma YieldedRight(r: Request, results: nat -> Result, step: Step, serial: nat, observed: bool)
    requires Right(r, results) && r.running && r.waiting.None? && Next(r.routine, Fed(r)) == Yield(step)
    ensures Right(Yielded(r, step, serial, observed), results)
  {
    FedRight(r, results);
    hide Meaning, Tickets;
  }

  /** The request after it has finished; its tickets are accounted for elsewhere. */
  function Settled(r: Request, outcome: Result): Request {
    r.(fed := Fed(r), input := None, running := false, outcome := Some(outcome), drains := [],
       completion := if r.completion.Observed? then Resolved(outcome) else r.completion)
  }

  lemma SettledRight(r: Request, results: nat -> Result, outcome: Result)
    requires Right(r, results) && r.running && r.waiting.None? && Next(r.routine, Fed(r)) == Done(outcome)
    ensures Right(Settled(r, outcome), results) && outcome == Meaning(r.routine, [], results)
  {
    FedRight(r, results);
    hide Tickets;
  }

  /** The requests in admission order: finished ones, the one that is being worked on, and ones not begun. */
  predicate PlacedAt(requests: seq<Request>, results: nat -> Result, head: nat, k: nat)
    requires k < |requests|
  {
    var r := requests[k];
    && Right(r, results)
    && (k < head <==> !r.running)
    && (k > head ==> Fresh(r))
    && (k >= head ==> r.next == if k + 1 < |requests| then Some(k + 1) else None)
  }

  predicate Placed(requests: seq<Request>, results: nat -> Result, head: nat) {
    && head <= |requests|
    && forall k :: 0 <= k < |requests| ==> PlacedAt(requests, results, head, k)
  }

  lemma PlacedUpdate(requests: seq<Request>, results: nat -> Result, head: nat, r: Request)
    requires Placed(requests, results, head) && head < |requests| && Right(r, results) && r.running
    requires r.next == requests[head].next
    ensures Placed(requests[head := r], results, head)
  {
    var after := requests[head := r];
    forall k | 0 <= k < |after| ensures PlacedAt(after, results, head, k) {
      assert PlacedAt(requests, results, head, k);
    }
    hide Right, Fresh;
  }

  lemma PlacedSettled(requests: seq<Request>, results: nat -> Result, head: nat, r: Request, next: nat)
    requires Placed(requests, results, head) && head < |requests| && Right(r, results) && !r.running && next == head + 1
    ensures Placed(requests[head := r], results, next)
  {
    var after := requests[head := r];
    forall k | 0 <= k < |after| ensures PlacedAt(after, results, next, k) {
      assert PlacedAt(requests, results, head, k);
    }
    hide Right;
    assert forall k :: next <= k < |requests| ==> Fresh(requests[k]) by {
      forall k | next <= k < |requests| ensures Fresh(requests[k]) {
        assert PlacedAt(requests, results, head, k);
      }
    }
  }

  /** A change that keeps the running state in place, at any position. */
  lemma PlacedTouched(requests: seq<Request>, results: nat -> Result, head: nat, k: nat, r: Request)
    requires Placed(requests, results, head) && k < |requests| && Right(r, results)
    requires r.running == requests[k].running && r.next == requests[k].next && (Fresh(requests[k]) ==> Fresh(r))
    ensures Placed(requests[k := r], results, head)
  {
    var after := requests[k := r];
    forall i | 0 <= i < |after| ensures PlacedAt(after, results, head, i) {
      assert PlacedAt(requests, results, head, i);
    }
    hide Right, Fresh;
  }

  /** A new request at the end. */
  lemma PlacedAdmitted(requests: seq<Request>, results: nat -> Result, head: nat, routine: Routine)
    requires Placed(requests, results, head)
    ensures var n := |requests|;
            var linked := if head < n then requests[n - 1 := requests[n - 1].(next := Some(n))] else requests;
            Placed(linked + [Admitted(routine)], results, head)
  {
    var n := |requests|;
    var linked := if head < n then requests[n - 1 := requests[n - 1].(next := Some(n))] else requests;
    var after := linked + [Admitted(routine)];
    forall k | 0 <= k < |after| ensures PlacedAt(after, results, head, k) {
      if k < n {
        assert PlacedAt(requests, results, head, k);
      }
    }
    hide Meaning, Tickets;
  }
}
