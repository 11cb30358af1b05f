/**
 * What the worker and the consumer of GPU completions share, and every atomic
 * step the worker can take on it. A request is named by its admission number.
 *
 * A word of the change directory is the set of its set bits, and it is named by
 * the branch it was made for: the parent branch, the slot in it, and a serial
 * number that no other branch of that slot ever had.
 */
module ProgressWorld {
  import opened Options

  type Slot = s: nat | s < 32

  datatype Word = Root(serial: nat) | Child(parent: Word, slot: Slot, serial: nat)

  /** One word of a path and the bit to set in it. */
  datatype Mark = Mark(word: Word, slot: Slot)

  type Path = seq<Mark>

  /** Eleven marks from the root to the leaf, each branch in the slot of the one above it. */
  predicate IsPath(p: Path) { |p| == 11 && p[0].word.Root? && forall i :: 0 < i < 11 ==> Joined(p, i) }

  /** The branch at level i was made for the slot marked above it. */
  predicate Joined(p: Path, i: nat)
    requires 0 < i < |p|
  {
    p[i].word.Child? && Mark(p[i].word.parent, p[i].word.slot) == p[i - 1]
  }

  /** A path is determined by its leaf. */
  lemma {:induction false} PathDetermined(p: Path, q: Path, i: nat)
    requires IsPath(p) && IsPath(q) && i <= 10 && p[i] == q[i]
    ensures forall k :: 0 <= k <= i ==> p[k] == q[k]
  {
    if i > 0 {
      assert Joined(p, i) && Joined(q, i);
      PathDetermined(p, q, i - 1);
    }
  }

  /** The publications of a request: its result, its error, or the drain after an error. */
  datatype Section = Success | Failure | Drain

  /**
   * Where a request's producer stands. A publication with a path raises the
   * flag, marks, stores, lowers the flag and marks again; one without a path
   * only stores. A watch marks the path and then acknowledges.
   */
  datatype Phase =
    | Idle
    | Raise(section: Section)
    | First(section: Section, next: nat)
    | Stores(section: Section, step: nat)
    | Lower(section: Section)
    | Second(section: Section, next: nat)
    | Watch(path: Path, next: nat)
    | Acknowledge

  datatype Stage = Running | Failed | Settled

  /**
   * One request: its shared header, its producer, and what the consumer has sent
   * it. The last three fields only record history: the path under which the
   * completion is enrolled, whether it ever was, and the level from which on all
   * bits of that path have been set since the consumer last took its leaf bit.
   */
  datatype Request = Request(
    status: nat, drained: bool, acknowledged: bool, publishing: bool,
    stage: Stage, registered: bool, progress: Option<Path>, subscription: Option<Path>, phase: Phase,
    path: Option<Path>, subscribed: bool, reach: nat)

  const FRESH := Request(0, false, false, false, Running, true, None, None, Idle, None, false, 11)

  datatype Event =
    | Begin(section: Section)   // start a publication
    | Deliver                   // receive the watch-drain message
    | Forget                    // drop a settled request
    | Continue                  // the next atomic step of the current phase

  predicate CanBegin(r: Request, section: Section, retired: bool) {
    && r.phase.Idle? && r.registered
    && match section
       case Success => r.stage.Running? && !retired
       case Failure => r.stage.Running?
       case Drain => r.stage.Failed?
  }

  function Finish(r: Request, section: Section): Request {
    r.(phase := Idle, stage := if section.Failure? then Failed else Settled)
  }

  /** The mark that the current phase sets next. */
  function NextMark(r: Request): Option<Mark> {
    match r.phase
    case First(_, i) => if r.progress.Some? && i < |r.progress.value| then Some(r.progress.value[i]) else None
    case Second(_, i) => if r.progress.Some? && i < |r.progress.value| then Some(r.progress.value[i]) else None
    case Watch(path, i) => if i < |path| then Some(path[i]) else None
    case _ => None
  }

  /** The level that the mark i of a path reaches, provided all levels below it are reached. */
  function Marked(r: Request, path: Path, i: nat): Request {
    if r.path == Some(path) && i < r.reach <= i + 1 then r.(reach := i) else r
  }

  function Stored(r: Request, section: Section, step: nat): Request {
    match section
    case Success => if step == 0 then r.(drained := true) else r.(status := 1)
    case Failure => r.(status := 2)
    case Drain => r.(drained := true)
  }

  function AfterStore(r: Request, section: Section, step: nat): Request {
    if section.Success? && step == 0 then r.(phase := Stores(section, 1))
    else if r.progress.Some? then r.(phase := Lower(section))
    else Finish(r, section)
  }

  /** The next atomic step of the producer, the bit it sets aside. */
  function Continued(r: Request): Request {
    match r.phase
    case Idle => r
    case Raise(s) => r.(publishing := true, phase := First(s, 10))
    case First(s, i) =>
      if r.progress.None? then r
      else Marked(r, r.progress.value, i).(phase := if i == 0 then Stores(s, 0) else First(s, i - 1))
    case Stores(s, k) => AfterStore(Stored(r, s, k), s, k)
    case Lower(s) => r.(publishing := false, phase := Second(s, 10))
    case Second(s, i) =>
      if r.progress.None? then r
      else
        var marked := Marked(r, r.progress.value, i);
        if i == 0 then Finish(marked, s) else marked.(phase := Second(s, i - 1))
    case Watch(path, i) => Marked(r, path, i).(phase := if i == 0 then Acknowledge else Watch(path, i - 1))
    case Acknowledge => r.(acknowledged := true, phase := Idle)
  }

  function Delivered(r: Request): Request {
    if !r.phase.Idle? || r.subscription.None? then r
    else r.(subscription := None, phase := Watch(r.subscription.value, 10),
            progress := if r.registered then r.subscription else r.progress)
  }

  /** A step of the producer; one that is not enabled changes nothing. */
  function StepRequest(r: Request, e: Event, retired: bool): Request {
    match e
    case Begin(section) =>
      if !CanBegin(r, section, retired) then r
      else r.(phase := if r.progress.Some? then Raise(section) else Stores(section, 0))
    case Deliver => Delivered(r)
    case Forget => if r.phase.Idle? && r.stage.Settled? then r.(registered := false) else r
    case Continue => Continued(r)
  }

  /** Between the flag going up and going down again. */
  predicate Publishing(r: Request) {
    r.phase.First? || r.phase.Lower? || (r.phase.Stores? && r.progress.Some?)
  }

  /** The drain of this request is stored. */
  predicate PastDrain(r: Request) {
    || r.stage.Settled? || !r.registered
    || ((r.phase.Lower? || r.phase.Second?) && !r.phase.section.Failure?)
    || (r.phase.Stores? && r.phase.section.Success? && r.phase.step > 0)
  }

  predicate PathOr(p: Option<Path>, path: Option<Path>) {
    p.Some? ==> IsPath(p.value) && (path.Some? ==> p == path)
  }

  /** What every reachable request satisfies. */
  predicate Proper(r: Request) {
    && (r.publishing <==> Publishing(r))
    && (PastDrain(r) || r.status == 1 ==> r.drained)
    && (r.phase.Raise? || r.phase.First? || r.phase.Lower? || r.phase.Second? ==> r.progress.Some?)
    && (r.phase.Watch? || r.phase.Acknowledge? || r.acknowledged ==> r.progress.Some? || r.drained)
    && (r.phase.First? || r.phase.Second? || r.phase.Watch? ==> r.phase.next <= 10)
    && PathOr(r.progress, r.path) && PathOr(r.subscription, r.path) && PathOr(r.path, r.path)
    && (r.phase.Watch? ==> PathOr(Some(r.phase.path), r.path))
    && (!r.subscribed ==>
          && r.path.None? && r.progress.None? && r.subscription.None?
          && !r.phase.Watch? && !r.phase.Acknowledge? && !r.acknowledged)
    && r.reach <= 11 && r.status <= 2
  }

  /** The consumer's reasons to look at a completion again. */
  datatype Attention = Attention(arming: bool, publishing: bool, changed: bool)

  predicate Noticed(s: Attention) { s.arming || s.publishing || s.changed }

  /** The level that the first mark of a publication in progress has completed. */
  function Bound(r: Request): nat { if r.phase.First? then r.phase.next + 1 else 0 }

  /**
   * Why no drain is overlooked: an enrolled completion that is drained is
   * noticed or completely marked, unless it is being handled, and one in
   * publication is known to be so or marked so far, unless its mark has just
   * been taken. Until the watch is acknowledged it is kept under observation.
   */
  predicate Covered(r: Request, s: Attention, handled: bool, taken: bool) {
    r.path.Some? ==>
      && (r.drained && !handled ==> Noticed(s) || r.reach == 0)
      && (Publishing(r) && !taken ==> s.publishing || r.reach <= Bound(r))
      && (!r.acknowledged ==> s.arming)
  }

  /** What the consumer can rely on: the worker only adds. */
  predicate After(r: Request, r': Request) {
    && (r.drained ==> r'.drained)
    && (r.acknowledged ==> r'.acknowledged)
    && (r.status != 0 ==> r'.status != 0)
    && r'.reach <= r.reach && r'.path == r.path && r'.subscribed == r.subscribed
  }

  /** r' is a sound successor of r: nothing is taken back and no drain becomes overlooked. */
  predicate Succeeds(r: Request, r': Request, s: Attention, handled: bool, taken: bool) {
    && After(r, r') && Proper(r')
    && (Covered(r, s, handled, taken) && (taken ==> handled) ==> Covered(r', s, handled, taken))
  }

  lemma RaiseStep(r: Request, s: Attention, handled: bool, taken: bool)
    requires Proper(r) && r.phase.Raise?
    ensures Succeeds(r, Continued(r), s, handled, taken)
  {
    hide IsPath;
  }

  lemma FirstStep(r: Request, s: Attention, handled: bool, taken: bool)
    requires Proper(r) && r.phase.First?
    ensures Succeeds(r, Continued(r), s, handled, taken)
  {
    hide IsPath;
  }

  lemma SuccessStoresStep(r: Request, s: Attention, handled: bool, taken: bool)
    requires Proper(r) && r.phase.Stores? && r.phase.section.Success?
    ensures Succeeds(r, Continued(r), s, handled, taken)
  {
    hide IsPath, PathOr;
  }

  lemma FailureStoresStep(r: Request, s: Attention, handled: bool, taken: bool)
    requires Proper(r) && r.phase.Stores? && r.phase.section.Failure?
    ensures Succeeds(r, Continued(r), s, handled, taken)
  {
    hide IsPath, PathOr;
  }

  lemma DrainStoresStep(r: Request, s: Attention, handled: bool, taken: bool)
    requires Proper(r) && r.phase.Stores? && r.phase.section.Drain?
    ensures Succeeds(r, Continued(r), s, handled, taken)
  {
    hide IsPath, PathOr;
  }

  lemma StoresStep(r: Request, s: Attention, handled: bool, taken: bool)
    requires Proper(r) && r.phase.Stores?
    ensures Succeeds(r, Continued(r), s, handled, taken)
  {
    hide Proper, Continued, Succeeds;
    match r.phase.section
    case Success => SuccessStoresStep(r, s, handled, taken);
    case Failure => FailureStoresStep(r, s, handled, taken);
    case Drain => DrainStoresStep(r, s, handled, taken);
  }

  lemma LowerStep(r: Request, s: Attention, handled: bool, taken: bool)
    requires Proper(r) && r.phase.Lower?
    ensures Succeeds(r, Continued(r), s, handled, taken)
  {
    hide IsPath;
  }

  lemma SecondStep(r: Request, s: Attention, handled: bool, taken: bool)
    requires Proper(r) && r.phase.Second?
    ensures Succeeds(r, Continued(r), s, handled, taken)
  {
    hide IsPath;
  }

  lemma WatchStep(r: Request, s: Attention, handled: bool, taken: bool)
    requires Proper(r) && r.phase.Watch?
    ensures Succeeds(r, Continued(r), s, handled, taken)
  {
    hide IsPath;
  }

  lemma AcknowledgeStep(r: Request, s: Attention, handled: bool, taken: bool)
    requires Proper(r) && r.phase.Acknowledge?
    ensures Succeeds(r, Continued(r), s, handled, taken)
  {
    hide IsPath;
  }

  lemma BeginStep(r: Request, section: Section, retired: bool, s: Attention, handled: bool, taken: bool)
    requires Proper(r)
    ensures Succeeds(r, StepRequest(r, Begin(section), retired), s, handled, taken)
  {
    hide IsPath;
  }

  lemma DeliverStep(r: Request, s: Attention, handled: bool, taken: bool)
    requires Proper(r)
    ensures Succeeds(r, StepRequest(r, Deliver, false), s, handled, taken)
  {
    hide IsPath;
  }

  lemma ForgetStep(r: Request, s: Attention, handled: bool, taken: bool)
    requires Proper(r)
    ensures Succeeds(r, StepRequest(r, Forget, false), s, handled, taken)
  {
    hide IsPath;
  }

  /** Every step of a producer is sound, whatever the consumer has noticed so far. */
  lemma StepSucceeds(r: Request, e: Event, retired: bool, s: Attention, handled: bool, taken: bool)
    requires Proper(r)
    ensures Succeeds(r, StepRequest(r, e, retired), s, handled, taken)
  {
    match e
    case Begin(section) => BeginStep(r, section, retired, s, handled, taken);
    case Deliver => DeliverStep(r, s, handled, taken);
    case Forget => ForgetStep(r, s, handled, taken);
    case Continue => ContinueStep(r, s, handled, taken);
  }

  lemma ContinueStep(r: Request, s: Attention, handled: bool, taken: bool)
    requires Proper(r)
    ensures Succeeds(r, Continued(r), s, handled, taken)
  {
    match r.phase
    case Idle => IdleStep(r, s, handled, taken);
    case Raise(_) => RaiseStep(r, s, handled, taken);
    case First(_, _) => FirstStep(r, s, handled, taken);
    case Stores(_, _) => StoresStep(r, s, handled, taken);
    case Lower(_) => LowerStep(r, s, handled, taken);
    case Second(_, _) => SecondStep(r, s, handled, taken);
    case Watch(_, _) => WatchStep(r, s, handled, taken);
    case Acknowledge => AcknowledgeStep(r, s, handled, taken);
  }

  lemma IdleStep(r: Request, s: Attention, handled: bool, taken: bool)
    requires Proper(r)
    ensures Succeeds(r, r, s, handled, taken)
  {
    hide Proper, Covered;
  }

  type Words = map<Word, set<Slot>>

  function Bits(words: Words, word: Word): set<Slot> { if word in words then words[word] else {} }

  /** Atomics.or of one bit. */
  function Or(words: Words, m: Mark): Words { words[m.word := Bits(words, m.word) + {m.slot}] }

  /** Atomics.and with the complement of one bit. */
  function Clear(words: Words, m: Mark): Words { words[m.word := Bits(words, m.word) - {m.slot}] }

  predicate IsSet(words: Words, m: Mark) { m.slot in Bits(words, m.word) }

  /** Every bit of the enrolled path from its recorded level on is set, except for one being rechecked. */
  ghost predicate Reached(words: Words, r: Request, hole: Option<Mark>) {
    r.path.Some? && |r.path.value| == 11 ==>
      forall i :: r.reach <= i < 11 ==> IsSet(words, r.path.value[i]) || hole == Some(r.path.value[i])
  }

  function OrNext(words: Words, r: Request, e: Event): Words {
    if e.Continue? && NextMark(r).Some? then Or(words, NextMark(r).value) else words
  }

  lemma OrKeeps(words: Words, m: Mark, other: Mark)
    ensures IsSet(words, other) ==> IsSet(Or(words, m), other)
    ensures IsSet(Or(words, m), m)
  {
  }

  /** The level recorded in history never gets ahead of the bits. */
  lemma MarkReached(words: Words, r: Request, e: Event, retired: bool, hole: Option<Mark>)
    requires Proper(r) && Reached(words, r, hole)
    ensures Reached(OrNext(words, r, e), StepRequest(r, e, retired), hole)
  {
    hide Or, IsSet, Proper, StepRequest, NextMark;
    var r' := StepRequest(r, e, retired);
    ReachChange(r, e, retired);
    if r.path.Some? && |r.path.value| == 11 {
      forall i | r'.reach <= i < 11
        ensures IsSet(OrNext(words, r, e), r.path.value[i]) || hole == Some(r.path.value[i])
      {
        if e.Continue? && NextMark(r).Some? {
          OrKeeps(words, NextMark(r).value, r.path.value[i]);
        }
      }
    }
  }

  /** A step that lowers the recorded level sets the bit of that level. */
  predicate MarksLevel(r: Request, r': Request, next: Option<Mark>) {
    && r'.path == r.path
    && (r'.reach != r.reach ==>
          && r.path.Some? && |r.path.value| == 11 && r'.reach + 1 == r.reach <= 11
          && next == Some(r.path.value[r'.reach]))
  }

  lemma ReachChange(r: Request, e: Event, retired: bool)
    requires Proper(r)
    ensures MarksLevel(r, StepRequest(r, e, retired), if e.Continue? then NextMark(r) else None)
  {
    hide Proper, MarksLevel, Continued, NextMark;
    match e
    case Begin(_) => Unmarked(r, e, retired);
    case Deliver => Unmarked(r, e, retired);
    case Forget => Unmarked(r, e, retired);
    case Continue =>
      match r.phase
      case First(_, _) => MarksFirst(r);
      case Second(_, _) => MarksSecond(r);
      case Watch(_, _) => MarksWatch(r);
      case _ => MarksNothing(r);
  }

  lemma Unmarked(r: Request, e: Event, retired: bool)
    requires !e.Continue?
    ensures MarksLevel(r, StepRequest(r, e, retired), None)
  {
  }

  lemma MarksNothing(r: Request)
    requires !r.phase.First? && !r.phase.Second? && !r.phase.Watch?
    ensures MarksLevel(r, Continued(r), NextMark(r))
  {
    hide Continued;
    ReachSame(r);
  }

  lemma ReachSame(r: Request)
    requires !r.phase.First? && !r.phase.Second? && !r.phase.Watch?
    ensures Continued(r).path == r.path && Continued(r).reach == r.reach
  {
    hide Marked, Stored, AfterStore, Finish;
    if r.phase.Stores? {
      StoredReach(r, r.phase.section, r.phase.step);
    }
  }

  lemma StoredReach(r: Request, s: Section, k: nat)
    ensures AfterStore(Stored(r, s, k), s, k).path == r.path && AfterStore(Stored(r, s, k), s, k).reach == r.reach
  {
  }

  lemma MarksFirst(r: Request)
    requires Proper(r) && r.phase.First?
    ensures MarksLevel(r, Continued(r), NextMark(r))
  {
  }

  lemma MarksSecond(r: Request)
    requires Proper(r) && r.phase.Second?
    ensures MarksLevel(r, Continued(r), NextMark(r))
  {
  }

  lemma MarksWatch(r: Request)
    requires Proper(r) && r.phase.Watch?
    ensures MarksLevel(r, Continued(r), NextMark(r))
  {
  }

  /** The shared state: directory words, requests, and the connection's generation and accounting. */
  datatype World = World(words: Words, requests: map<nat, Request>, generation: bool, accounted: bool)

  function RequestOf(w: World, c: nat): Request { if c in w.requests then w.requests[c] else FRESH }

  function WithRequest(w: World, c: nat, r: Request): World { w.(requests := w.requests[c := r]) }

  datatype Action = Produce(c: nat, event: Event) | RetireConnection | AccountConnection

  /** One atomic step of the other side. */
  function Step(w: World, a: Action): World {
    match a
    case Produce(c, e) =>
      var r := RequestOf(w, c);
      WithRequest(w.(words := OrNext(w.words, r, e)), c, StepRequest(r, e, w.generation))
    case RetireConnection => w.(generation := true)
    case AccountConnection => w.(accounted := true)
  }

  function Run(w: World, actions: seq<Action>): World
    decreases |actions|
  {
    if actions == [] then w else Run(Step(w, actions[0]), actions[1..])
  }

  datatype Observed = Observed(arming: set<nat>, publishing: set<nat>, changed: set<nat>)

  function AttentionTo(o: Observed, c: nat): Attention { Attention(c in o.arming, c in o.publishing, c in o.changed) }

  /** History and bits agree, for every request. */
  ghost predicate Coherent(w: World, hole: Option<Mark>) {
    forall c: nat :: Proper(RequestOf(w, c)) && Reached(w.words, RequestOf(w, c), hole)
  }

  /** No drain is overlooked, for any request. */
  ghost predicate Safe(w: World, o: Observed, handled: set<nat>, taken: set<nat>) {
    forall c: nat :: Covered(RequestOf(w, c), AttentionTo(o, c), c in handled, c in taken)
  }

  ghost predicate Later(w: World, w': World) {
    && (forall c: nat :: After(RequestOf(w, c), RequestOf(w', c)))
    && (forall m: Mark :: IsSet(w.words, m) ==> IsSet(w'.words, m))
    && (w.generation ==> w'.generation) && (w.accounted ==> w'.accounted)
  }

  lemma StepKeeps(w: World, a: Action, o: Observed, handled: set<nat>, taken: set<nat>, hole: Option<Mark>)
    requires Coherent(w, hole) && Safe(w, o, handled, taken) && taken <= handled
    ensures Coherent(Step(w, a), hole) && Safe(Step(w, a), o, handled, taken) && Later(w, Step(w, a))
  {
    hide Proper, Reached, Covered, After, StepRequest, OrNext, IsSet;
    var w' := Step(w, a);
    forall c: nat
      ensures Proper(RequestOf(w', c)) && Reached(w'.words, RequestOf(w', c), hole)
      ensures Covered(RequestOf(w', c), AttentionTo(o, c), c in handled, c in taken)
      ensures After(RequestOf(w, c), RequestOf(w', c))
    {
      assert Proper(RequestOf(w, c)) && Reached(w.words, RequestOf(w, c), hole);
      assert Covered(RequestOf(w, c), AttentionTo(o, c), c in handled, c in taken);
      RequestKeeps(w, a, c, AttentionTo(o, c), c in handled, c in taken, hole);
    }
    forall m: Mark | IsSet(w.words, m) ensures IsSet(w'.words, m) {
      WordsGrow(w, a, m);
    }
  }

  lemma WordsGrow(w: World, a: Action, m: Mark)
    ensures IsSet(w.words, m) ==> IsSet(Step(w, a).words, m)
  {
    if a.Produce? {
      var r := RequestOf(w, a.c);
      if a.event.Continue? && NextMark(r).Some? {
        OrKeeps(w.words, NextMark(r).value, m);
      }
    }
    hide StepRequest, IsSet, Or;
  }

  lemma RequestKeeps(w: World, a: Action, c: nat, s: Attention, handled: bool, taken: bool, hole: Option<Mark>)
    requires Proper(RequestOf(w, c)) && Reached(w.words, RequestOf(w, c), hole)
    requires Covered(RequestOf(w, c), s, handled, taken) && (taken ==> handled)
    ensures var w' := Step(w, a);
            && Proper(RequestOf(w', c)) && Reached(w'.words, RequestOf(w', c), hole)
            && Covered(RequestOf(w', c), s, handled, taken) && After(RequestOf(w, c), RequestOf(w', c))
  {
    hide Proper, Covered, After, StepRequest, Reached, OrNext, Succeeds;
    var r := RequestOf(w, c);
    Unmoved(r);
    if a.Produce? && a.c == c {
      Successor(r, a.event, w.generation, s, handled, taken);
      MarkReached(w.words, r, a.event, w.generation, hole);
    } else {
      ReachedElsewhere(w, a, r, hole);
    }
  }

  lemma Unmoved(r: Request)
    ensures After(r, r)
  {
  }

  lemma Successor(r: Request, e: Event, retired: bool, s: Attention, handled: bool, taken: bool)
    requires Proper(r) && Covered(r, s, handled, taken) && (taken ==> handled)
    ensures var r' := StepRequest(r, e, retired);
            Proper(r') && Covered(r', s, handled, taken) && After(r, r')
  {
    hide Proper, Covered, After, StepRequest;
    StepSucceeds(r, e, retired, s, handled, taken);
  }

  lemma ReachedElsewhere(w: World, a: Action, r: Request, hole: Option<Mark>)
    requires Reached(w.words, r, hole)
    ensures Reached(Step(w, a).words, r, hole)
  {
    hide Step, IsSet;
    if r.path.Some? && |r.path.value| == 11 {
      forall i | r.reach <= i < 11
        ensures IsSet(Step(w, a).words, r.path.value[i]) || hole == Some(r.path.value[i])
      {
        WordsGrow(w, a, r.path.value[i]);
      }
    }
  }

  lemma LaterTransitive(a: World, b: World, c: World)
    requires Later(a, b) && Later(b, c)
    ensures Later(a, c)
  {
    forall d: nat ensures After(RequestOf(a, d), RequestOf(c, d)) {
      assert After(RequestOf(a, d), RequestOf(b, d)) && After(RequestOf(b, d), RequestOf(c, d));
    }
  }

  /** Any run of the other side keeps what the consumer has established. */
  lemma {:induction false} RunKeeps(w: World, actions: seq<Action>, o: Observed, handled: set<nat>, taken: set<nat>,
                                    hole: Option<Mark>)
    requires Coherent(w, hole) && Safe(w, o, handled, taken) && taken <= handled
    ensures var w' := Run(w, actions);
            Coherent(w', hole) && Safe(w', o, handled, taken) && Later(w, w')
    decreases |actions|
  {
    hide Coherent, Safe, Later, Step;
    if actions == [] {
      LaterSelf(w);
    } else {
      StepKeeps(w, actions[0], o, handled, taken, hole);
      RunKeeps(Step(w, actions[0]), actions[1..], o, handled, taken, hole);
      LaterTransitive(w, Step(w, actions[0]), Run(w, actions));
    }
  }

  /** The consumer takes the leaf bit of an enrolled completion. */
  function TakeLeaf(w: World, c: nat, m: Mark): World {
    WithRequest(w.(words := Clear(w.words, m)), c, RequestOf(w, c).(reach := 11))
  }

  function Enroll(w: World, c: nat, path: Path): World {
    WithRequest(w, c, RequestOf(w, c).(path := Some(path), subscribed := true, reach := 11))
  }

  function Subscribe(w: World, c: nat, path: Path): World {
    WithRequest(w, c, RequestOf(w, c).(subscription := Some(path)))
  }

  function Unenroll(w: World, c: nat): World { WithRequest(w, c, RequestOf(w, c).(path := None, reach := 11)) }

  lemma EnrollCoherent(w: World, c: nat, path: Path)
    requires Coherent(w, None) && IsPath(path) && !RequestOf(w, c).subscribed
    ensures Coherent(Enroll(w, c, path), None)
    ensures forall d: nat :: RequestOf(Enroll(w, c, path), d).path
                          == if d == c then Some(path) else RequestOf(w, d).path
  {
    var w' := Enroll(w, c, path);
    forall d: nat ensures Proper(RequestOf(w', d)) && Reached(w'.words, RequestOf(w', d), None) {
      assert Proper(RequestOf(w, d)) && Reached(w.words, RequestOf(w, d), None);
    }
  }

  lemma UnenrollCoherent(w: World, c: nat)
    requires Coherent(w, None)
    ensures Coherent(Unenroll(w, c), None)
    ensures forall d: nat :: RequestOf(Unenroll(w, c), d).path == if d == c then None else RequestOf(w, d).path
  {
    var w' := Unenroll(w, c);
    forall d: nat ensures Proper(RequestOf(w', d)) && Reached(w'.words, RequestOf(w', d), None) {
      assert Proper(RequestOf(w, d)) && Reached(w.words, RequestOf(w, d), None);
    }
  }

  /** A path that no enrolled completion shares its leaf with. */
  ghost predicate Unshared(w: World, c: nat, m: Mark) {
    forall d: nat :: d != c && RequestOf(w, d).path.Some? && |RequestOf(w, d).path.value| == 11 ==>
      m !in RequestOf(w, d).path.value
  }

  lemma TakeLeafCoherent(w: World, c: nat, m: Mark)
    requires Coherent(w, None) && Unshared(w, c, m)
    ensures Coherent(TakeLeaf(w, c, m), None)
  {
    hide Proper, Bits;
    var w' := TakeLeaf(w, c, m);
    forall d: nat ensures Proper(RequestOf(w', d)) && Reached(w'.words, RequestOf(w', d), None) {
      assert Proper(RequestOf(w, d)) && Reached(w.words, RequestOf(w, d), None);
      if d == c {
        ReachReset(RequestOf(w, c));
      } else if RequestOf(w, d).path.Some? && |RequestOf(w, d).path.value| == 11 {
        ClearKeeps(w.words, RequestOf(w, d), m);
      }
    }
  }

  lemma ReachReset(r: Request)
    requires Proper(r)
    ensures Proper(r.(reach := 11))
  {
  }

  lemma ClearKeeps(words: Words, r: Request, m: Mark)
    requires Reached(words, r, None) && r.path.Some? && |r.path.value| == 11 && m !in r.path.value
    ensures Reached(Clear(words, m), r, None)
  {
    forall i | r.reach <= i < 11 ensures IsSet(Clear(words, m), r.path.value[i]) {
      assert IsSet(words, r.path.value[i]);
      assert r.path.value[i] != m;
    }
  }

  /** Clearing one branch bit leaves that bit to be rechecked. */
  lemma ClearBranchCoherent(w: World, m: Mark)
    requires Coherent(w, None)
    ensures Coherent(w.(words := Clear(w.words, m)), Some(m))
  {
    hide Proper;
    var w' := w.(words := Clear(w.words, m));
    forall d: nat ensures Proper(RequestOf(w', d)) && Reached(w'.words, RequestOf(w', d), Some(m)) {
      assert Proper(RequestOf(w, d)) && Reached(w.words, RequestOf(w, d), None);
      assert RequestOf(w', d) == RequestOf(w, d);
      ClearLeavesHole(w.words, RequestOf(w, d), m);
    }
  }

  lemma ClearLeavesHole(words: Words, r: Request, m: Mark)
    requires Reached(words, r, None)
    ensures Reached(Clear(words, m), r, Some(m))
  {
    if r.path.Some? && |r.path.value| == 11 {
      forall i | r.reach <= i < 11
        ensures IsSet(Clear(words, m), r.path.value[i]) || Some(m) == Some(r.path.value[i])
      {
        assert IsSet(words, r.path.value[i]);
      }
    }
  }

  /** Setting the bit again closes the recheck. */
  lemma OrCloses(w: World, m: Mark, hole: Option<Mark>)
    requires Coherent(w, hole) && (hole.Some? ==> hole == Some(m))
    ensures Coherent(w.(words := Or(w.words, m)), None)
  {
    hide Proper;
    var w' := w.(words := Or(w.words, m));
    forall d: nat ensures Proper(RequestOf(w', d)) && Reached(w'.words, RequestOf(w', d), None) {
      assert Proper(RequestOf(w, d)) && Reached(w.words, RequestOf(w, d), hole);
      assert RequestOf(w', d) == RequestOf(w, d);
      OrFills(w.words, RequestOf(w, d), m, hole);
    }
  }

  lemma OrFills(words: Words, r: Request, m: Mark, hole: Option<Mark>)
    requires Reached(words, r, hole) && (hole.Some? ==> hole == Some(m))
    ensures Reached(Or(words, m), r, None)
  {
    if r.path.Some? && |r.path.value| == 11 {
      forall i | r.reach <= i < 11 ensures IsSet(Or(words, m), r.path.value[i]) {
        OrKeeps(words, m, r.path.value[i]);
        assert IsSet(words, r.path.value[i]) || hole == Some(r.path.value[i]);
      }
    }
  }

  lemma LaterSelf(w: World)
    ensures Later(w, w)
  {
  }

  /**
   * Shared memory as the consumer sees it: before each of its own atomic
   * operations the other side takes as many steps as the schedule says.
   */
  class SharedMemory {
    var world: World
    var schedule: seq<seq<Action>>

    constructor (schedule: seq<seq<Action>>)
      ensures world == World(map[], map[], false, false) && this.schedule == schedule
    {
      world := World(map[], map[], false, false);
      this.schedule := schedule;
    }

    method Yield(ghost o: Observed, ghost handled: set<nat>, ghost taken: set<nat>, ghost hole: Option<Mark>)
      requires Coherent(world, hole) && Safe(world, o, handled, taken) && taken <= handled
      modifies this
      ensures Coherent(world, hole) && Safe(world, o, handled, taken) && Later(old(world), world)
      ensures world == Run(old(world), if old(schedule) == [] then [] else old(schedule)[0])
      ensures schedule == if old(schedule) == [] then [] else old(schedule)[1..]
    {
      hide *;
      ghost var start := world;
      if schedule == [] {
        RunKeeps(start, [], o, handled, taken, hole);
        RunNone(start);
        return;
      }
      var actions := schedule[0];
      schedule := schedule[1..];
      RunKeeps(start, actions, o, handled, taken, hole);
      world := Run(world, actions);
    }
  }

  lemma RunNone(w: World)
    ensures Run(w, []) == w
  {
  }
}
