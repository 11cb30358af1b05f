/**
 * The consumer of GPU completions: a directory of changes that the worker marks,
 * and the list of pending completions that decides which ones to inspect. Every
 * atomic operation comes after a pause in which the worker takes any steps.
 */
module GpuProgress {
  import opened Options
  import opened Sequences
  import opened AdmissionIndex
  import LinkedAdmissions
  import opened ProgressWorld
  import opened ProgressPaths
  import opened ProgressSafety
  import opened PendingSafety

  /** The sparse shared directory of changed completions. */
  class GpuProgressNotifications {
    const memory: SharedMemory
    var directory: Directory

    constructor (memory: SharedMemory)
      requires forall c: nat :: RequestOf(memory.world, c).path.None?
      ensures Valid() && directory.paths == map[] && this.memory == memory
    {
      this.memory := memory;
      directory := Directory(None, map[], map[], map[], 0);
    }

    /** The directory is well linked, without branches that nothing uses, and the history records exactly its paths. */
    ghost predicate Valid()
      reads this, memory
    {
      WellLinked(directory) && Trim(directory) && Records(directory, memory.world)
    }

    /** A new path for the id, or nothing if there is no room for its branches. */
    method Add(c: nat, room: nat) returns (path: Option<Path>)
      requires Valid() && c !in directory.paths && c <= MAX_SAFE_INTEGER
      requires Coherent(memory.world, None) && !RequestOf(memory.world, c).subscribed
      modifies this, memory`world
      ensures Valid() && Coherent(memory.world, None) && (room >= 11 ==> path.Some?)
      ensures path.Some? ==>
                && IsPath(path.value) && directory.paths == old(directory.paths)[c := path.value]
                && memory.world == Enroll(old(memory.world), c, path.value)
      ensures path.None? ==>
                directory == old(directory).(serial := directory.serial) && memory.world == old(memory.world)
    {
      hide WellLinked, Records, Coherent, Enroll, Trim, TrimBut;
      var d, p, built := BuildPath(directory, c, room);
      if !built {
        SameRecords(directory, d, memory.world);
        directory := d;
        return None;
      }
      WithEntryLinked(d, c, p, p[10].word);
      WithEntryTrim(d, c, p);
      directory := WithEntry(d, c, p);
      EnrollCoherent(memory.world, c, p);
      EnrollRecords(old(directory), directory, memory.world, c, p);
      memory.world := Enroll(memory.world, c, p);
      path := Some(p);
    }

    /**
     * Removes a path with exactly the branches that no other path uses; its words
     * are never named again.
     */
    method Delete(c: nat)
      requires Valid() && Coherent(memory.world, None)
      modifies this, memory`world
      ensures Valid() && directory.paths == old(directory.paths) - {c} && Fewer(old(directory), directory)
      ensures forall m :: m in directory.children <==> OnPath(directory, m)
      ensures memory.world == (if c in old(directory.paths) then Unenroll(old(memory.world), c) else old(memory.world))
      ensures Coherent(memory.world, None) && (c !in old(directory.paths) ==> directory == old(directory))
    {
      FewerStarts(directory, c);
      if c !in directory.paths {
        assert directory.paths - {c} == directory.paths;
        OnlyUsed();
        return;
      }
      assert Linked(directory, c);
      hide WellLinked, Records, Coherent, Unenroll, Linked, Trim, TrimBut, Fewer, OnPath, IsPath;
      var path := directory.paths[c];
      WithoutEntryLinked(directory, c);
      WithoutEntryTrim(directory, c);
      EntryLeads(directory, c);
      var d := Prune(directory, WithoutEntry(directory, c), path);
      if d.paths == map[] {
        EmptyLinked(d.serial);
        d := Directory(None, map[], map[], map[], d.serial);
      }
      UnenrollCoherent(memory.world, c);
      UnenrollRecords(directory, d, memory.world, c);
      directory := d;
      memory.world := Unenroll(memory.world, c);
      OnlyUsed();
    }

    lemma OnlyUsed()
      requires Valid()
      ensures forall m :: m in directory.children <==> OnPath(directory, m)
    {
      hide WellLinked, Trim, Records, OnPath;
      forall m ensures m in directory.children <==> OnPath(directory, m) {
        BranchesUsed(directory, m);
      }
    }

    /**
     * Clears the bit of a visited branch, and sets it again if the branch has marks
     * by now: the bit agrees with the branch, once the producers have come to rest.
     */
    method ClearAndRecheck(owner: PendingGpuCompletions, m: Mark)
      requires owner.notifications == this && owner.Inv(NONE) && Depth(m.word) < 10
      modifies memory
      ensures owner.Inv(NONE) && Forward(old(memory.world), memory.world)
      ensures old(memory.schedule) == [] ==>
                (IsSet(memory.world.words, m) <==>
                 (m in directory.children && Bits(memory.world.words, directory.children[m]) != {}))
    {
      hide Good, Later, Clear, Or, Bits, Depth, Avl, Forward, Unused, IsSet;
      ghost var w0 := memory.world;
      owner.Pause(NONE);
      ghost var w1 := memory.world;
      CoherentOf(owner.p, owner.ordered.root, w1, directory, NONE);
      ChildApart(owner.p, owner.ordered.root, w1, directory, m);
      BitsRechecked(w1.words, m);
      GoodCleared(owner.p, owner.ordered.root, w1, directory, m);
      memory.world := Cleared(memory.world, m);
      ghost var w2 := memory.world;
      WordsForward(w1, w2);
      if m !in directory.children {
        AbsentUnused(directory, m);
        GoodAbsent(owner.p, owner.ordered.root, memory.world, directory, m);
        ForwardTwice(w0, w1, w2, w2, w2);
        return;
      }
      owner.Pause(NONE.(hole := Some(m)));
      ghost var w3 := memory.world;
      if Bits(memory.world.words, directory.children[m]) == {} {
        GoodEmptyChild(owner.p, owner.ordered.root, memory.world, directory, m);
        ForwardTwice(w0, w1, w2, w3, w3);
        return;
      }
      owner.Pause(NONE.(hole := Some(m)));
      ghost var w4 := memory.world;
      GoodSet(owner.p, owner.ordered.root, w4, directory, m);
      memory.world := Set(memory.world, m);
      LaterTransitive(w2, w3, w4);
      WordsForward(w4, memory.world);
      ForwardTwice(w0, w1, w2, w4, memory.world);
    }

    /** Sets every bit of an enrolled path again, from the leaf up. */
    method MarkAgain(owner: PendingGpuCompletions, c: nat)
      requires owner.notifications == this && c in directory.paths
      requires owner.Inv(NONE.(handled := {c}, taken := {c})) && RequestOf(memory.world, c).reach <= 11
      modifies memory
      ensures owner.Inv(NONE) && Forward(old(memory.world), memory.world)
    {
      hide Good, Later, Avl, Forward, MarkOwn, RequestOf;
      ghost var e := NONE.(handled := {c}, taken := {c});
      ghost var start := memory.world;
      PathLength(owner.p, owner.ordered.root, memory.world, directory, c, e);
      WordsForward(start, start);
      var path := directory.paths[c];
      var index := 11;
      while index > 0
        invariant 0 <= index <= 11 && owner.Inv(e)
        invariant RequestOf(memory.world, c).reach <= index && Forward(start, memory.world)
      {
        index := index - 1;
        ghost var before := memory.world;
        owner.Pause(e);
        ghost var middle := memory.world;
        LaterForward(before, middle);
        ReachKept(before, middle, c);
        GoodOwnMark(owner.p, owner.ordered.root, memory.world, directory, c, index);
        memory.world := MarkOwn(memory.world, c, path, index);
        MarkForward(middle, c, path, index);
        ForwardTransitive(start, before, middle);
        ForwardTransitive(start, middle, memory.world);
      }
      GoodRemarked(owner.p, owner.ordered.root, memory.world, directory, c);
    }

    /** Takes a leaf bit and reports its completion, or marks it again if it was reported already. */
    method TakeSlot(owner: PendingGpuCompletions, m: Mark, visited: seq<nat>) returns (seen: seq<nat>)
      requires owner.notifications == this && owner.Inv(NONE) && Depth(m.word) == 10
      requires AllEnrolled(directory, visited)
      modifies memory, owner`p, owner.ordered
      ensures owner.Inv(NONE) && AllEnrolled(directory, seen)
      ensures Reported(old(owner.Seen()), visited, owner.Seen(), seen)
      ensures m in directory.entries && old(RequestOf(memory.world, directory.entries[m]).reach) <= 10 ==>
                directory.entries[m] in seen
    {
      hide Good, Later, Avl, Forward, RequestOf, Reported, Depth, Noted, WokenUp, TakeLeaf, Lookup, Clear, Bits, Or;
      ghost var v := owner.Seen();
      owner.Pause(NONE);
      ghost var w1 := memory.world;
      LaterForward(v.w, w1);
      if m in directory.entries {
        ReachKept(v.w, w1, directory.entries[m]);
        if RequestOf(w1, directory.entries[m]).reach <= 10 {
          LeafSet(owner.p, owner.ordered.root, w1, directory, m);
        }
      }
      if !IsSet(memory.world.words, m) {
        ReportedNothing(v, owner.Seen(), visited);
        return visited;
      }
      if m !in directory.entries {
        GoodClearedLeaf(owner.p, owner.ordered.root, memory.world, directory, m);
        memory.world := Cleared(memory.world, m);
        WordsForward(w1, memory.world);
        ForwardTransitive(v.w, w1, memory.world);
        ReportedNothing(v, owner.Seen(), visited);
        return visited;
      }
      var c := directory.entries[m];
      GoodTaken(owner.p, owner.ordered.root, memory.world, directory, m);
      memory.world := TakeLeaf(memory.world, c, m);
      ghost var w2 := memory.world;
      TakenRequests(w1, c, m);
      if c in visited {
        MarkAgain(owner, c);
        ReportedAgain(v, w1, w2, memory.world, visited, c);
        seen := visited;
      } else {
        EntryIndexed(owner.p, owner.ordered.root, w2, directory, m, NONE.(handled := {c}, taken := {c}));
        var flag := owner.Changed(c);
        seen := visited + [c];
        ReportedOne(v, w1, w2, owner.Seen(), visited, c, flag);
      }
    }

    /**
     * Visits the set bits of a branch from the lowest up: every completion below
     * it that was marked at least up to here is reported, also while the worker
     * goes on marking.
     */
    method Walk(owner: PendingGpuCompletions, current: Word, depth: nat, visited: seq<nat>) returns (seen: seq<nat>)
      requires owner.notifications == this && owner.Inv(NONE) && Depth(current) == depth <= 10
      requires AllEnrolled(directory, visited)
      modifies memory, owner`p, owner.ordered
      ensures owner.Inv(NONE) && AllEnrolled(directory, seen)
      ensures Reported(old(owner.Seen()), visited, owner.Seen(), seen)
      ensures BranchDone(directory, old(memory.world), current, depth, seen)
      decreases 10 - depth, 2
    {
      hide Good, Later, Avl, Forward, RequestOf, Reported, Depth, Remaining, Under, SlotDone, BranchDone, Bits, Lowest;
      ghost var v := owner.Seen();
      owner.Pause(NONE);
      LaterForward(v.w, memory.world);
      ReportedNothing(v, owner.Seen(), visited);
      RemainingBegins(owner.p, owner.ordered.root, v.w, memory.world, directory, current, depth, visited);
      var bits := Bits(memory.world.words, current);
      seen := visited;
      while bits != {}
        invariant owner.Inv(NONE) && AllEnrolled(directory, seen)
        invariant Reported(v, visited, owner.Seen(), seen)
        invariant Remaining(directory, v.w, memory.world, current, depth, bits, seen)
      {
        var slot := Lowest(bits);
        seen := VisitSlot(owner, Mark(current, slot), depth, seen, v, visited, bits);
        bits := bits - {slot};
      }
      RemainingEnds(directory, v.w, memory.world, current, depth, seen);
    }

    /** One set bit: the branch below and then the bit itself, or a leaf. */
    method VisitSlot(owner: PendingGpuCompletions, m: Mark, depth: nat, visited: seq<nat>,
                     ghost start: View, ghost first: seq<nat>, ghost bits: set<Slot>) returns (seen: seq<nat>)
      requires owner.notifications == this && owner.Inv(NONE) && Depth(m.word) == depth <= 10
      requires AllEnrolled(directory, visited)
      requires Reported(start, first, owner.Seen(), visited)
      requires Remaining(directory, start.w, memory.world, m.word, depth, bits, visited)
      modifies memory, owner`p, owner.ordered
      ensures owner.Inv(NONE) && AllEnrolled(directory, seen)
      ensures Reported(start, first, owner.Seen(), seen)
      ensures Remaining(directory, start.w, memory.world, m.word, depth, bits - {m.slot}, seen)
      decreases 10 - depth, 1
    {
      hide Good, Later, Avl, Forward, RequestOf, Reported, Depth, Remaining, Under, SlotDone, BranchDone, Bits, Lowest;
      ghost var v := owner.Seen();
      if depth < 10 {
        seen := VisitBranch(owner, m, depth, visited);
      } else {
        seen := TakeSlot(owner, m, visited);
        LeafDone(v.p, v.tree, v.w, directory, m, seen);
      }
      RemainingStep(directory, start.w, v, owner.Seen(), m, depth, bits, visited, seen);
      ReportedTransitive(start, first, v, visited, owner.Seen(), seen);
    }

    method VisitBranch(owner: PendingGpuCompletions, m: Mark, depth: nat, visited: seq<nat>) returns (seen: seq<nat>)
      requires owner.notifications == this && owner.Inv(NONE) && Depth(m.word) == depth < 10
      requires AllEnrolled(directory, visited)
      modifies memory, owner`p, owner.ordered
      ensures owner.Inv(NONE) && AllEnrolled(directory, seen)
      ensures Reported(old(owner.Seen()), visited, owner.Seen(), seen)
      ensures SlotDone(directory, old(memory.world), m, depth, seen)
      decreases 10 - depth, 0
    {
      hide Good, Later, Avl, Forward, RequestOf, Reported, Depth, Under, SlotDone, BranchDone, Bits, Lowest;
      ghost var v := owner.Seen();
      seen := visited;
      WordsForward(v.w, v.w);
      ReportedNothing(v, v, visited);
      if m in directory.children {
        ChildDepth(v.p, v.tree, v.w, directory, m);
        seen := Walk(owner, directory.children[m], depth + 1, visited);
        SlotWalked(v.p, v.tree, v.w, directory, m, depth, seen);
      } else {
        SlotEmpty(v.p, v.tree, v.w, directory, m, depth, seen);
      }
      ghost var v1 := owner.Seen();
      ClearAndRecheck(owner, m);
      ReportedForward(v, visited, v1, seen, owner.Seen());
    }

    /**
     * Walks until nothing new turns up: every enrolled completion that was marked
     * completely when this began is reported, and none twice.
     */
    method Collect(owner: PendingGpuCompletions) returns (visited: seq<nat>)
      requires owner.notifications == this && owner.Inv(NONE)
      modifies memory, owner`p, owner.ordered
      ensures owner.Inv(NONE) && Distinct(visited) && AllEnrolled(directory, visited)
      ensures Reported(old(owner.Seen()), [], owner.Seen(), visited)
      ensures AllMarkedDone(directory, old(memory.world), visited)
    {
      hide Good, Later, Avl, Forward, RequestOf, Reported, Depth, BranchDone, Bits, AllEnrolled, AllMarkedDone,
           Distinct;
      ghost var v := owner.Seen();
      visited := [];
      WordsForward(v.w, v.w);
      ReportedNothing(v, v, []);
      EmptyReported(v.p, v.tree, v.w, directory);
      if directory.root.None? {
        return;
      }
      RootDepth(v.p, v.tree, v.w, directory);
      var root := directory.root.value;
      var again := true;
      while again
        invariant owner.Inv(NONE) && AllEnrolled(directory, visited) && Distinct(visited)
        invariant Reported(v, [], owner.Seen(), visited)
        invariant !again ==> AllMarkedDone(directory, v.w, visited)
        invariant visited != [] ==> AllMarkedDone(directory, v.w, visited)
        invariant visited == [] && again ==> owner.Seen() == v
        decreases again, |directory.paths| - |visited|
      {
        var before := visited;
        ghost var middle := owner.Seen();
        visited := Walk(owner, root, 0, visited);
        ReportedTransitive(v, [], middle, before, owner.Seen(), visited);
        WalkedAgain(owner.p, owner.ordered.root, owner.Seen().w, directory, v, middle, owner.Seen(), root, before,
                    visited);
        ghost var after := owner.Seen();
        owner.Pause(NONE);
        LaterForward(after.w, memory.world);
        ReportedForward(v, [], after, visited, owner.Seen());
        again := Bits(memory.world.words, root) != {} && |visited| != |before|;
      }
    }
  }

  /** What a drain callback does to the consumer before it returns. */
  datatype Callback = Request(transferred: bool) | Refresh(c: nat) | Advance | Return

  /**
   * The consumer's list of pending completions. Which foreign calls fail, how many
   * branches an enrollment finds room for, and what the callbacks do is given in
   * advance, as lists that are used up in order.
   */
  class PendingGpuCompletions {
    const memory: SharedMemory
    const notifications: GpuProgressNotifications
    const ordered: LinkedAdmissions.ActiveGpuAdmissions
    var p: Pending
    var faults: seq<bool>
    var rooms: seq<nat>
    var script: seq<Callback>

    /** No completion yet, on shared memory in which nothing has happened. */
    constructor (memory: SharedMemory, faults: seq<bool>, rooms: seq<nat>, script: seq<Callback>)
      requires memory.world == World(map[], map[], false, false)
      ensures Inv(NONE) && p == EMPTY && this.memory == memory && fresh(notifications) && fresh(ordered)
    {
      this.memory := memory;
      this.faults := faults;
      this.rooms := rooms;
      this.script := script;
      notifications := new GpuProgressNotifications(memory);
      ordered := new LinkedAdmissions.ActiveGpuAdmissions();
      p := EMPTY;
      new;
      EmptyConsistent(memory.world, ordered.root, notifications.directory);
    }

    ghost predicate Inv(e: Exempt)
      reads this, memory, notifications, ordered
    {
      && notifications.memory == memory && ordered.Valid() && Trim(notifications.directory)
      && Good(p, ordered.root, memory.world, notifications.directory, e)
    }

    ghost function Seen(): View
      reads this, memory, ordered
    {
      View(memory.world, ordered.root, p)
    }

    /** The other side takes its steps before an atomic operation. */
    method Pause(ghost e: Exempt)
      requires Inv(e) && e.taken <= e.handled
      modifies memory
      ensures Inv(e) && Later(old(memory.world), memory.world)
      ensures old(memory.schedule) == [] ==> memory.schedule == [] && memory.world == old(memory.world)
    {
      hide Coherent, Safe, Consistent, Records, Later, WellLinked;
      RunNone(memory.world);
      ghost var before := memory.world;
      memory.Yield(Observing(p), e.handled, e.taken, e.hole);
      GoodLater(p, ordered.root, before, memory.world, notifications.directory, e);
    }

    /** The callback of the directory: c has changed, and its leaf bit has just been taken. */
    method Changed(c: nat) returns (flag: bool)
      requires Inv(NONE.(handled := {c}, taken := {c})) && c in notifications.directory.paths
      modifies this`p, memory, ordered
      ensures Inv(NONE) && Later(old(memory.world), memory.world)
      ensures p == Noted(old(p), c, flag) && WokenUp(old(ordered.root), ordered.root, c)
    {
      hide Good, Later, Noted, RequestOf, Avl, Lookup;
      ghost var start, tree := p, ordered.root;
      ChangeBegins(p, tree, memory.world, notifications.directory, c);
      p := p.(changed := p.changed + {c});
      Pause(NONE.(handled := {c}, taken := {c}, waking := {c}));
      flag := RequestOf(memory.world, c).publishing;
      NotedTwice(start, c, flag);
      ghost var before := p;
      p := Noted(p, c, flag);
      ordered.SetActive(c, true);
      ChangeEnds(before, tree, ordered.root, memory.world, notifications.directory, c);
    }

    /** Whether the drain is visible: in the completion's header, or for the whole connection. */
    method IsDrained(c: nat, ghost e: Exempt) returns (drained: bool)
      requires Inv(e) && e.handled <= {c} && e.taken == {}
      modifies memory
      ensures Inv(e) && Later(old(memory.world), memory.world)
      ensures old(IsDrainedIn(memory.world, c)) ==> drained
      ensures if drained then IsDrainedIn(memory.world, c) else Inv(e.(handled := {}))
    {
      hide Good, Later, Avl, RequestOf;
      ghost var w0 := memory.world;
      Pause(e);
      ghost var w1 := memory.world;
      LaterDrained(w0, w1, c);
      if RequestOf(memory.world, c).drained {
        return true;
      }
      GoodUndrained(p, ordered.root, w1, notifications.directory, e, c);
      Pause(e.(handled := {}));
      LaterDrained(w1, memory.world, c);
      LaterTransitive(w0, w1, memory.world);
      GoodWeaken(p, ordered.root, memory.world, notifications.directory, e.(handled := {}), e.handled);
      return memory.world.accounted;
    }

    /** The index is made when the first failure needs it. */
    method EnsureOrdered(ghost e: Exempt)
      requires Inv(e)
      modifies this`p, ordered
      ensures Inv(e) && p == old(p).(isOrdered := true) && (old(p.isOrdered) ==> ordered.root == old(ordered.root))
    {
      hide Good, Avl;
      if p.isOrdered {
        return;
      }
      ghost var tree := ordered.root;
      ordered.Reset();
      var i := 0;
      while i < p.total
        invariant 0 <= i <= p.total && ordered.Valid()
        invariant IndexesBelow(ordered.root, p.live, i)
        invariant p == old(p) && Good(p, tree, memory.world, notifications.directory, e)
      {
        if i in p.live && i < MAX_SAFE_INTEGER {
          NotYet(ordered.root, p.live, i);
          ghost var before := ordered.root;
          ordered.Add(i);
          IndexesMore(before, ordered.root, p.live, i);
        } else {
          IndexesMore(ordered.root, ordered.root, p.live, i);
        }
        i := i + 1;
      }
      IndexesAll(p, tree, ordered.root, memory.world, notifications.directory, e);
      GoodOrdered(p, tree, ordered.root, memory.world, notifications.directory, e);
      p := p.(isOrdered := true);
    }

    /** Enrolls a failed completion for change notices, or inspects it always when there is no room for its path. */
    method Enlist(c: nat) returns (path: Option<Path>)
      requires Inv(NONE.(failing := {c})) && c in p.live && c in p.resolved && c !in p.unresolved
      requires c < MAX_SAFE_INTEGER && !RequestOf(memory.world, c).subscribed
      modifies this`p, this`rooms, memory`world, notifications, ordered
      ensures Inv(NONE) && Steady(old(Seen()), Seen())
      ensures if path.Some? then c in notifications.directory.paths && notifications.directory.paths[c] == path.value
              else c in p.fallback
    {
      hide Good, Later, Avl, RequestOf, Lookup, Steady, Enroll, WokenUp, Coherent, WellLinked, Records;
      ghost var v := Seen();
      EnsureOrdered(NONE.(failing := {c}));
      ghost var v1, d1 := Seen(), notifications.directory;
      SteadyStill(v, v1);
      NeverSubscribed(p, ordered.root, memory.world, d1, NONE.(failing := {c}), c);
      CoherentOf(p, ordered.root, memory.world, d1, NONE.(failing := {c}));
      var room := if rooms == [] then 11 else rooms[0];
      rooms := if rooms == [] then [] else rooms[1..];
      path := notifications.Add(c, room);
      ordered.SetActive(c, true);
      Woken(v1.tree, ordered.root, c);
      if path.None? {
        GoodUnbuilt(p, v1.tree, ordered.root, memory.world, d1, notifications.directory, c);
        p := p.(fallback := p.fallback + {c});
        SteadyUnbuilt(v1, ordered.root, c);
      } else {
        GoodEnrolled(p, v1.tree, ordered.root, v1.w, d1, notifications.directory, c, path.value);
        p := p.(arming := p.arming + {c});
        SteadyEnrolled(v1, ordered.root, c, path.value);
      }
      SteadyTransitive(v, v1, Seen());
    }

    /** Enrolls a failed completion and asks the worker to watch it; one that cannot be watched is inspected always. */
    method Watch(c: nat)
      requires Inv(NONE.(failing := {c})) && c in p.live && c in p.resolved && c !in p.unresolved
      requires c < MAX_SAFE_INTEGER && !RequestOf(memory.world, c).subscribed
      modifies this`p, this`faults, this`rooms, this`script, memory, notifications, ordered
      ensures Inv(NONE) && Onward(old(Seen()), old(|script|), Seen(), |script|)
      ensures c in p.live ==> c in p.fallback || c in notifications.directory.paths
      decreases |script|, 2
    {
      hide Good, Later, Avl, RequestOf, Lookup, Steady, Onward;
      ghost var v, n := Seen(), |script|;
      DepthOrdered(p, v.tree, v.w, notifications.directory, NONE.(failing := {c}));
      var path := Enlist(c);
      ghost var v1 := Seen();
      SteadyKeeps(v, v1);
      SteadyOnward(v, n, v1);
      if path.Some? {
        var _ := SendSubscription(c, path.value);
        OnwardTransitive(v, n, v1, n, Seen(), |script|);
      }
    }

    /**
     * The subscription is sent, or fails at once or later on. In either case it may
     * come back to the list, where the completion may even be retired meanwhile.
     */
    method SendSubscription(c: nat, path: Path) returns (failed: bool)
      requires Inv(NONE) && c in p.resolved
      requires c in notifications.directory.paths && notifications.directory.paths[c] == path
      modifies this`p, this`faults, this`rooms, this`script, memory, notifications, ordered
      ensures Inv(NONE) && Onward(old(Seen()), old(|script|), Seen(), |script|)
      ensures c in p.live ==> c in p.fallback || c in notifications.directory.paths
      ensures failed ==> c !in notifications.directory.paths && (c in p.live ==> c in p.fallback)
      ensures old(faults) != [] && old(faults)[0] ==> failed
      decreases |script|, 1
    {
      hide Good, Later, Avl, RequestOf, Lookup, Steady, Onward, Subscribe;
      ghost var v, n := Seen(), |script|;
      DepthOrdered(p, v.tree, v.w, notifications.directory, NONE);
      OnwardSelf(v, n);
      var sent := faults == [] || !faults[0];
      faults := if faults == [] then [] else faults[1..];
      if sent {
        GoodSubscribed(p, ordered.root, memory.world, notifications.directory, c);
        memory.world := Subscribe(memory.world, c, path);
        SteadySubscribed(v, c, path);
        SteadyKeeps(v, Seen());
        SteadyOnward(v, n, Seen());
      }
      ghost var v1 := Seen();
      RunCallbacks();
      ghost var v2, n2 := Seen(), |script|;
      OnwardKeeps(v1, n, v2, n2, c);
      OnwardTransitive(v, n, v1, n, v2, n2);
      DepthOrdered(p, v2.tree, v2.w, notifications.directory, NONE);
      failed := !sent || (faults != [] && faults[0]);
      faults := if faults == [] then [] else faults[1..];
      if failed {
        Unwatch(c);
        SteadyOnward(v2, n2, Seen());
        OnwardTransitive(v, n, v2, n2, Seen(), n2);
      } else {
        ResolvedTracked(p, v2.tree, v2.w, notifications.directory, c, {});
      }
    }

    /** What could not be watched is no longer enrolled; unless it is gone by now it is inspected always. */
    method Unwatch(c: nat)
      requires Inv(NONE)
      modifies this`p, memory`world, notifications, ordered
      ensures Inv(NONE) && Steady(old(Seen()), Seen())
      ensures c !in notifications.directory.paths && (c in p.live ==> c in p.fallback)
    {
      hide Good, Later, Avl, RequestOf, Lookup, Steady, Unenroll, WokenUp, Coherent, WellLinked, Records;
      ghost var v, d := Seen(), notifications.directory;
      SteadyStill(v, v);
      CoherentOf(p, v.tree, v.w, d, NONE);
      notifications.Delete(c);
      if c !in p.live {
        GoneUnenrolled(p, v.tree, v.w, d, c);
        assert p.arming - {c} == p.arming;
        p := p.(arming := p.arming - {c});
        return;
      }
      if p.isOrdered {
        ordered.SetActive(c, true);
        Woken(v.tree, ordered.root, c);
      }
      GoodUnenrolled(p, v.tree, ordered.root, v.w, d, notifications.directory, c);
      p := p.(arming := p.arming - {c}, fallback := p.fallback + {c});
      SteadyUnenrolled(v, d, ordered.root, c);
    }

    /** A known failure is watched for its drain, unless it is drained already. */
    method HandleFailure(c: nat, ghost handled: set<nat>)
      requires Inv(NONE.(failing := {c}, handled := handled)) && handled <= {c}
      requires c in p.resolved && !RequestOf(memory.world, c).subscribed
      modifies this`p, this`faults, this`rooms, this`script, memory, notifications, ordered
      ensures Inv(NONE.(failing := {c}, handled := handled))
      ensures !IsDrainedIn(memory.world, c) && c in p.live ==> c in p.fallback || c in notifications.directory.paths
      ensures Onward(old(Seen()), old(|script|), Seen(), |script|)
      decreases |script|, 3
    {
      hide Good, Later, Avl, RequestOf, Grows, Lookup, IsDrainedIn, Steady, Onward;
      ghost var v, n, e := Seen(), |script|, NONE.(failing := {c}, handled := handled);
      DepthOrdered(p, v.tree, v.w, notifications.directory, e);
      OnwardSelf(v, n);
      if c !in p.live {
        return;
      }
      GoodUnresolved(p, ordered.root, memory.world, notifications.directory, e, c);
      p := p.(unresolved := p.unresolved - {c});
      var drained := IsDrained(c, e);
      SteadyStill(v, Seen());
      SteadyOnward(v, n, Seen());
      LaterDrained(v.w, memory.world, c);
      if drained {
        return;
      }
      if c >= MAX_SAFE_INTEGER {
        GoodFallback(p, ordered.root, memory.world, notifications.directory, c);
        p := p.(fallback := p.fallback + {c});
        GoodLoosen(p, ordered.root, memory.world, notifications.directory, c, handled);
        SteadyStill(v, Seen());
        SteadyOnward(v, n, Seen());
        return;
      }
      ghost var middle := Seen();
      Watch(c);
      OnwardTransitive(v, n, middle, n, Seen(), |script|);
      GoodLoosen(p, ordered.root, memory.world, notifications.directory, c, handled);
    }

    /** Reads the outcome of an unresolved completion, if it has one. */
    method ReadOutcome(c: nat, ghost handled: set<nat>)
      requires Inv(NONE.(handled := handled)) && handled <= {c} && c !in p.resolved && c < p.total
      modifies this`p, this`faults, this`rooms, this`script, memory, notifications, ordered
      ensures Inv(NONE.(failing := {c}, handled := handled)) && Onward(old(Seen()), old(|script|), Seen(), |script|)
      ensures old(RequestOf(memory.world, c)).status != 0 || old(memory.world.generation) ==> c in p.resolved
      ensures c in p.live && c in p.resolved && !IsDrainedIn(memory.world, c) ==>
                c in p.fallback || c in notifications.directory.paths
      decreases |script|, 4
    {
      hide Good, Later, Avl, RequestOf, Lookup, Grows, Onward, IsDrainedIn, Steady;
      ghost var v, n, e := Seen(), |script|, NONE.(handled := handled);
      DepthOrdered(p, v.tree, v.w, notifications.directory, e);
      Pause(e);
      LaterDrained(v.w, memory.world, c);
      ghost var w1 := memory.world;
      UnresolvedUnsubscribed(p, v.tree, w1, notifications.directory, e, c);
      var status := RequestOf(memory.world, c).status;
      var failed := status == 2;
      if !failed {
        Pause(e);
        LaterDrained(w1, memory.world, c);
        LaterTransitive(v.w, w1, memory.world);
        LaterFlags(v.w, memory.world);
        failed := memory.world.generation;
      }
      if !failed && status != 1 {
        ResolvedOnward(v, n, Seen(), c);
        GoodExempt(p, v.tree, memory.world, notifications.directory, c, handled);
        return;
      }
      if !failed {
        failed := faults != [] && faults[0];
        faults := if faults == [] then [] else faults[1..];
      }
      GoodResolved(p, v.tree, memory.world, notifications.directory, e, c);
      p := p.(resolved := p.resolved + {c});
      ghost var v1 := Seen();
      ResolvedOnward(v, n, v1, c);
      DrainedByHeader(memory.world, c);
      if failed {
        HandleFailure(c, handled);
        OnwardKeeps(v1, n, Seen(), |script|, c);
        OnwardTransitive(v, n, v1, n, Seen(), |script|);
      }
    }

    /** Forgets a completion whose transport obligation is over. */
    method Delete(c: nat, ghost e: Exempt)
      requires Inv(e) && e.failing <= {c} && e.handled <= {c} && e.taken == e.waking == {} && e.hole == None
      modifies this`p, memory`world, notifications, ordered
      ensures Inv(NONE) && p == Deleted(old(p), c) && Onward(old(Seen()), |script|, Seen(), |script|)
    {
      hide Good, Avl, RequestOf, Lookup, Grows, Onward, Unenroll, Updated, Deleted, WellLinked, Records, Coherent;
      ghost var v, d := Seen(), notifications.directory;
      DepthOrdered(p, v.tree, v.w, d, e);
      if p.isOrdered {
        ordered.Delete(c);
      }
      CoherentOf(p, v.tree, v.w, d, e);
      notifications.Delete(c);
      GoodDeleted(p, v.tree, ordered.root, v.w, d, notifications.directory, e, c);
      p := Deleted(p, c);
      DeletedOnward(v, |script|, Seen(), c);
    }

    /** Takes in what is visible of a completion, and retires it once its outcome and its drain are known. */
    method Refresh(c: nat, ghost handled: set<nat>)
      requires Inv(NONE.(handled := handled)) && handled <= {c} && c < p.total
      modifies this`p, this`faults, this`rooms, this`script, memory, notifications, ordered
      ensures Inv(NONE) && Onward(old(Seen()), old(|script|), Seen(), |script|)
      ensures Retires(old(Seen()), Seen(), c)
      decreases |script|, 5
    {
      hide Good, Later, Avl, RequestOf, Lookup, Grows, Onward, Steady, IsDrainedIn;
      ghost var v, n := Seen(), |script|;
      ghost var e := NONE.(failing := {c}, handled := handled);
      DepthOrdered(p, v.tree, v.w, notifications.directory, NONE.(handled := handled));
      OnwardSelf(v, n);
      if c !in p.resolved {
        ReadOutcome(c, handled);
      } else {
        ResolvedTracked(p, v.tree, v.w, notifications.directory, c, handled);
        GoodExempt(p, v.tree, v.w, notifications.directory, c, handled);
      }
      ghost var v1, n1 := Seen(), |script|;
      OnwardKeeps(v, n, v1, n1, c);
      DepthOrdered(p, v1.tree, v1.w, notifications.directory, e);
      var drained := IsDrained(c, e);
      ghost var v2 := Seen();
      LaterOnward(v1, n1, v2.w);
      OnwardTransitive(v, n, v1, n1, v2, n1);
      OnwardKeeps(v1, n1, v2, n1, c);
      if !drained {
        GoodHandled(p, ordered.root, memory.world, notifications.directory, NONE.(failing := {c}), c);
        return;
      }
      UnresolvedUnsubscribed(p, v2.tree, v2.w, notifications.directory, e, c);
      if c !in p.resolved || c in p.retired {
        GoodVacant(p, v2.tree, v2.w, notifications.directory, e, c);
        GoodHandled(p, v2.tree, v2.w, notifications.directory, NONE.(failing := {c}), c);
        return;
      }
      Delete(c, e);
      ghost var v3 := Seen();
      OnwardTransitive(v, n, v2, n1, v3, n1);
      OnwardKeeps(v2, n1, v3, n1, c);
      GoodRetired(p, v3.tree, v3.w, notifications.directory, NONE, c);
      p := p.(retired := p.retired + {c});
      ghost var v4 := Seen();
      RetiredOnward(v3, n1, c);
      OnwardTransitive(v, n, v3, n1, v4, n1);
      RunCallbacks();
      OnwardTransitive(v, n, v4, n1, Seen(), |script|);
      OnwardKeeps(v4, n1, Seen(), |script|, c);
    }

    /** Admits a completion under the next number. */
    method Add() returns (c: nat)
      requires Inv(NONE)
      modifies this`p, ordered
      ensures Inv(NONE) && c == old(p.total) && p == Added(old(p)) && c in p.live
      ensures forall b: nat :: old(Activated(ordered.root, b)) ==> Activated(ordered.root, b)
    {
      hide Good, Avl, Lookup, Updated;
      ghost var tree := ordered.root;
      c := p.total;
      if p.isOrdered && c < MAX_SAFE_INTEGER {
        NotIndexed(p, tree, memory.world, notifications.directory);
        ordered.Add(c);
      }
      AddedIndex(p, tree, ordered.root, memory.world, notifications.directory);
      GoodAdded(p, tree, ordered.root, memory.world, notifications.directory);
      p := Added(p);
    }

    /** The connection is retired or accounted for. */
    method IsTerminal() returns (terminal: bool)
      requires Inv(NONE)
      modifies memory
      ensures Inv(NONE) && Later(old(memory.world), memory.world)
      ensures old(memory.world.generation) || old(memory.world.accounted) ==> terminal
    {
      hide Good, Later, Avl;
      ghost var w0 := memory.world;
      Pause(NONE);
      ghost var w1 := memory.world;
      LaterFlags(w0, w1);
      if memory.world.generation {
        return true;
      }
      Pause(NONE);
      LaterFlags(w1, memory.world);
      LaterTransitive(w0, w1, memory.world);
      return memory.world.accounted;
    }

    /** Callbacks run until the script says that they return, and may reenter the consumer. */
    method RunCallbacks()
      requires Inv(NONE)
      modifies this`p, this`faults, this`rooms, this`script, memory, notifications, ordered
      ensures Inv(NONE) && Onward(old(Seen()), old(|script|), Seen(), |script|)
      decreases |script|, 0
    {
      hide Good, Later, Avl, Onward, Lookup;
      ghost var v, n := Seen(), |script|;
      DepthOrdered(p, v.tree, v.w, notifications.directory, NONE);
      OnwardSelf(v, n);
      while script != []
        invariant Inv(NONE) && |script| <= n && Onward(v, n, Seen(), |script|)
        decreases |script|
      {
        ghost var v1, n1 := Seen(), |script|;
        var callback := script[0];
        script := script[1..];
        DepthOrdered(p, v1.tree, v1.w, notifications.directory, NONE);
        OnwardSelf(v1, n1);
        OnwardShorter(v1, n1, v1, |script|);
        OnwardTransitive(v, n, v1, n1, v1, |script|);
        if callback.Return? {
          return;
        }
        RunCallback(callback);
        OnwardTransitive(v, n, v1, n1, Seen(), |script|);
      }
    }

    method RunCallback(callback: Callback)
      requires Inv(NONE)
      modifies this`p, this`faults, this`rooms, this`script, memory, notifications, ordered
      ensures Inv(NONE) && Onward(old(Seen()), old(|script|) + 1, Seen(), |script|) && |script| <= old(|script|)
      decreases |script|, 12
    {
      hide Good, Later, Avl, Onward, Lookup;
      ghost var v, n := Seen(), |script|;
      match callback
      case Request(transferred) =>
        PostRequest(transferred);
      case Refresh(c) =>
        DepthOrdered(p, v.tree, v.w, notifications.directory, NONE);
        OnwardSelf(v, n);
        if c < p.total {
          Refresh(c, {});
        }
        OnwardKeeps(v, n, Seen(), |script|, 0);
        OnwardLonger(v, n, Seen(), |script|);
      case Advance =>
        var _ := Advance();
        OnwardKeeps(v, n, Seen(), |script|, 0);
        OnwardLonger(v, n, Seen(), |script|);
      case Return =>
        DepthOrdered(p, v.tree, v.w, notifications.directory, NONE);
        OnwardSelf(v, n);
        OnwardLonger(v, n, v, n);
    }

    /** A new request: first what is pending moves on, then the completion is admitted and the message sent. */
    method PostRequest(transferred: bool)
      requires Inv(NONE)
      modifies this`p, this`faults, this`rooms, this`script, memory, notifications, ordered
      ensures Inv(NONE) && Onward(old(Seen()), old(|script|) + 1, Seen(), |script|) && |script| <= old(|script|)
      decreases |script|, 11
    {
      hide Good, Later, Avl, Onward, Lookup, Added, Grows;
      ghost var v, n := Seen(), |script|;
      var _ := Advance();
      ghost var v1, n1 := Seen(), |script|;
      OnwardKeeps(v, n, v1, n1, 0);
      DepthOrdered(p, v1.tree, v1.w, notifications.directory, NONE);
      Pause(NONE);
      ghost var v2 := Seen();
      LaterOnward(v1, n1, v2.w);
      OnwardTransitive(v, n, v1, n1, v2, n1);
      OnwardLonger(v, n, v2, n1);
      if memory.world.generation {
        return;
      }
      var c := Add();
      ghost var v3 := Seen();
      AddedOnward(v2, n1 + 1, v3, n1);
      OnwardWider(v, n, v2, n1);
      OnwardTransitive(v, n + 1, v2, n1 + 1, v3, n1);
      if !transferred {
        Delete(c, NONE);
        ghost var v4 := Seen();
        OnwardTransitive(v, n + 1, v3, n1, v4, n1);
        DepthOrdered(p, v4.tree, v4.w, notifications.directory, NONE);
        GoodGeneration(p, v4.tree, v4.w, notifications.directory);
        memory.world := memory.world.(generation := true);
        RetireOnward(v4, n1);
        ghost var v5 := Seen();
        OnwardTransitive(v, n + 1, v4, n1, v5, n1);
        var _ := Advance();
        OnwardKeeps(v5, n1, Seen(), |script|, 0);
        OnwardTransitive(v, n + 1, v5, n1, Seen(), |script|);
      }
    }

    /** Every live completion becomes eligible. */
    method ActivateAll()
      requires Inv(NONE)
      modifies ordered
      ensures Inv(NONE) && StaysActive(old(ordered.root), ordered.root)
      ensures p.isOrdered ==> forall c :: c in p.live && c < p.total ==> Awake(ordered.root, c)
    {
      hide Good, Avl, Lookup, Awake;
      if !p.isOrdered {
        return;
      }
      var c := 0;
      while c < p.total
        invariant Inv(NONE) && c <= p.total && StaysActive(old(ordered.root), ordered.root)
        invariant forall k :: k in p.live && k < c ==> Awake(ordered.root, k)
      {
        if c in p.live {
          ghost var tree := ordered.root;
          ordered.SetActive(c, true);
          GoodActivity(p, tree, ordered.root, memory.world, notifications.directory, c, true);
          StaysActiveMore(old(ordered.root), tree, ordered.root, c);
          forall k | k in p.live && k <= c ensures Awake(ordered.root, k) {
            AwakeMore(tree, ordered.root, c, k);
          }
        }
        c := c + 1;
      }
    }

    /** Refreshes everything live beyond the cursor in admission order, as the list itself is iterated. */
    method Scan(cursor: int, terminal: bool) returns (refreshed: seq<nat>)
      requires Inv(NONE) && -1 <= cursor
      modifies this`p, this`faults, this`rooms, this`script, memory, notifications, ordered
      ensures Inv(NONE) && Onward(old(Seen()), old(|script|), Seen(), |script|)
      ensures Scanned(old(Seen()), cursor, refreshed, Seen())
      ensures Increasing(refreshed) && exists high :: Within(refreshed, cursor, high)
      decreases |script|, 6
    {
      hide Good, Later, Avl, Onward, Lookup, Scanned, Increasing, Within, Retires;
      ghost var v, n := Seen(), |script|;
      DepthOrdered(p, v.tree, v.w, notifications.directory, NONE);
      OnwardSelf(v, n);
      LiveBelow(p, v.tree, v.w, notifications.directory, NONE);
      refreshed := [];
      var c := cursor + 1;
      ScanBegins(v, cursor);
      while c < p.total
        invariant Inv(NONE) && cursor < c && |script| <= n && Onward(v, n, Seen(), |script|)
        invariant ScannedBelow(v, cursor, c, refreshed, Seen())
        invariant Increasing(refreshed) && Within(refreshed, cursor, c - 1)
        decreases |script|, p.total - c
      {
        ghost var v1, n1 := Seen(), |script|;
        if c in p.live {
          if terminal {
            ForgetChange(c);
            OnwardTransitive(v, n, v1, n1, Seen(), n1);
          }
          LiveBelow(p, ordered.root, memory.world, notifications.directory,
                    NONE.(handled := if terminal then {c} else {}));
          ghost var v2 := Seen();
          Refresh(c, if terminal then {c} else {});
          ScannedMore(v, n, cursor, c, refreshed, v1, v2, n1, Seen(), |script|);
          OnwardTransitive(v, n, v2, n1, Seen(), |script|);
          OnwardKeeps(v2, n1, Seen(), |script|, c);
          IncreasingMore(refreshed, cursor, c - 1, c);
          refreshed := refreshed + [c];
        } else {
          ScannedGone(v, cursor, c, refreshed, v1);
          WithinMore(refreshed, cursor, c - 1, c);
        }
        c := c + 1;
      }
      OnwardKeeps(v, n, Seen(), |script|, 0);
      ScanEnds(v, cursor, c, refreshed, Seen());
    }

    method ForgetChange(c: nat)
      requires Inv(NONE)
      modifies this`p
      ensures Inv(NONE.(handled := {c})) && p == old(p).(changed := old(p.changed) - {c})
      ensures Onward(old(Seen()), |script|, Seen(), |script|)
    {
      hide Good, Avl, Onward;
      DepthOrdered(p, ordered.root, memory.world, notifications.directory, NONE);
      GoodReset(p, ordered.root, memory.world, notifications.directory, c);
      ForgetOnward(Seen(), |script|, c);
      p := p.(changed := p.changed - {c});
    }

    /** The connection is over: everything becomes eligible, and the rest is refreshed in order. */
    method AdvanceTerminal(cursor: int) returns (refreshed: seq<nat>)
      requires Inv(NONE) && -1 <= cursor
      modifies this`p, this`faults, this`rooms, this`script, memory, notifications, ordered
      ensures Inv(NONE) && Onward(old(Seen()), old(|script|), Seen(), |script|)
      ensures Scanned(old(Seen()), cursor, refreshed, Seen())
      ensures Increasing(refreshed) && exists high :: Within(refreshed, cursor, high)
      decreases |script|, 7
    {
      hide Good, Later, Avl, Onward, Lookup, Scanned, Increasing, Within, StaysActive;
      ghost var v, n := Seen(), |script|;
      DepthOrdered(p, v.tree, v.w, notifications.directory, NONE);
      ActivateAll();
      ghost var v1 := Seen();
      ActivatedOnward(v, n, v1.tree);
      refreshed := Scan(cursor, true);
      OnwardTransitive(v, n, v1, n, Seen(), |script|);
      ScannedSame(v, v1.tree, cursor, refreshed, Seen());
    }

    /** Reads the flags of the next active completion and refreshes it. */
    method Inspect(c: nat)
      requires Inv(NONE) && p.depth > 0 && c < p.total
      modifies this`p, this`faults, this`rooms, this`script, memory, notifications, ordered
      ensures Inv(NONE) && Onward(old(Seen()), old(|script|), Seen(), |script|)
      ensures Retires(old(Seen()), Seen(), c)
      decreases |script|, 6
    {
      hide Good, Later, Avl, Onward, Lookup, RequestOf, Inspected, Retires;
      ghost var v, n := Seen(), |script|;
      DepthOrdered(p, v.tree, v.w, notifications.directory, NONE);
      Pause(NONE);
      ghost var v1 := Seen();
      LaterOnward(v, n, v1.w);
      var r := RequestOf(memory.world, c);
      GoodInspected(p, v.tree, v1.w, notifications.directory, c);
      InspectedOnward(v1, n, c, r.acknowledged, r.publishing);
      InspectedKeeps(p, c, r.acknowledged, r.publishing);
      p := Inspected(p, c, r.acknowledged, r.publishing);
      ghost var v2 := Seen();
      OnwardTransitive(v, n, v1, n, v2, n);
      Refresh(c, {c});
      OnwardTransitive(v, n, v2, n, Seen(), |script|);
      RetiresEarlier(v, n, v2, n, Seen(), c);
    }

    /** The rest of a checkpoint that can no longer be selective. */
    method Rest(ghost v: View, ghost n: nat, cursor: int, refreshed: seq<nat>, terminal: bool) returns (all: seq<nat>)
      requires Inv(NONE) && -1 <= cursor && Onward(v, n, Seen(), |script|) && Served(v, cursor, refreshed, Seen())
      requires Increasing(refreshed) && Within(refreshed, -1, cursor)
      requires forall x: nat :: x in v.p.live ==> x < v.p.total
      modifies this`p, this`faults, this`rooms, this`script, memory, notifications, ordered
      ensures Inv(NONE) && Onward(v, n, Seen(), |script|) && |script| <= old(|script|)
      ensures UrgentDone(v, all, Seen()) && Increasing(all)
      decreases |script|, 8
    {
      hide Good, Avl, Onward, Lookup, Served, Scanned, Increasing, Within, UrgentDone;
      ghost var a, i := Seen(), |script|;
      var rest;
      if terminal {
        rest := AdvanceTerminal(cursor);
      } else {
        rest := Scan(cursor, false);
      }
      ghost var high :| Within(rest, cursor, high);
      ServedScanned(v, n, cursor, refreshed, a, i, rest, Seen(), |script|);
      IncreasingJoin(refreshed, -1, cursor, rest, high);
      OnwardTransitive(v, n, a, i, Seen(), |script|);
      OnwardKeeps(a, i, Seen(), |script|, 0);
      all := refreshed + rest;
    }

    /** Selective inspection: collected changes decide which completions are active, their order is by admission. */
    method Checkpoint() returns (refreshed: seq<nat>)
      requires Inv(NONE) && p.depth > 0 && p.isOrdered && p.total < MAX_SAFE_INTEGER
      modifies this`p, this`faults, this`rooms, this`script, memory, notifications, ordered
      ensures Inv(NONE) && Onward(old(Seen()), old(|script|), Seen(), |script|)
      ensures UrgentDone(old(Seen()), refreshed, Seen()) && Increasing(refreshed)
      decreases |script|, 9
    {
      hide Good, Later, Avl, Onward, Lookup, Served, Scanned, Increasing, Within, Retires, Reported, AllMarkedDone,
           UrgentDone, IsNextAfter, Activated;
      ghost var v, n := Seen(), |script|;
      LiveBelow(p, v.tree, v.w, notifications.directory, NONE);
      var visited := notifications.Collect(this);
      UrgentActive(v, notifications.directory, visited, Seen());
      ReportedOnward(v, n, Seen(), [], visited);
      OnwardKeeps(v, n, Seen(), n, 0);
      DepthOrdered(p, ordered.root, memory.world, notifications.directory, NONE);
      var cursor: int := -1;
      refreshed := [];
      ScanBegins(v, -1);
      while true
        invariant Inv(NONE) && |script| <= n && Onward(v, n, Seen(), |script|) && -1 <= cursor
        invariant Served(v, cursor, refreshed, Seen()) && Increasing(refreshed) && Within(refreshed, -1, cursor)
        invariant p.depth == v.p.depth && p.isOrdered
        decreases |script|, p.total - cursor
      {
        ghost var v1, n1 := Seen(), |script|;
        var next := ordered.NextAfter(cursor);
        ServedNext(v, cursor, refreshed, v1, next);
        if next.None? {
          var terminal := IsTerminal();
          LaterOnward(v1, n1, memory.world);
          ServedKept(v, n, cursor, refreshed, v1, n1, Seen(), n1);
          OnwardTransitive(v, n, v1, n1, Seen(), n1);
          if terminal {
            refreshed := Rest(v, n, cursor, refreshed, true);
          } else {
            ServedNext(v, cursor, refreshed, Seen(), next);
          }
          return;
        }
        var c := next.value;
        OnwardKeeps(v, n, v1, n1, c);
        ActiveLive(p, v1.tree, v1.w, notifications.directory, c);
        Inspect(c);
        ghost var v2, n2 := Seen(), |script|;
        ServedStep(v, n, c, refreshed, v1, n1, v2, n2);
        OnwardTransitive(v, n, v1, n1, v2, n2);
        OnwardKeeps(v1, n1, v2, n2, c);
        DepthOrdered(p, v2.tree, v2.w, notifications.directory, NONE);
        IncreasingMore(refreshed, -1, cursor, c);
        refreshed := refreshed + [c];
        cursor := c;
        var terminal := IsTerminal();
        ghost var v3 := Seen();
        LaterOnward(v2, n2, v3.w);
        ServedKept(v, n, cursor, refreshed, v2, n2, v3, n2);
        OnwardTransitive(v, n, v2, n2, v3, n2);
        if terminal || p.total >= MAX_SAFE_INTEGER {
          refreshed := Rest(v, n, cursor, refreshed, terminal);
          return;
        }
        visited := notifications.Collect(this);
        ReportedOnward(v3, n2, Seen(), [], visited);
        ServedKept(v, n, cursor, refreshed, v3, n2, Seen(), n2);
        OnwardTransitive(v, n, v3, n2, Seen(), n2);
        OnwardKeeps(v3, n2, Seen(), n2, c);
        DepthOrdered(p, ordered.root, memory.world, notifications.directory, NONE);
      }
    }

    /** The outermost checkpoint decides for everything checked whether it stays active. */
    method CloseCheckpoint()
      requires Inv(NONE) && p.depth > 0 && p.isOrdered
      modifies this`p, ordered
      ensures Inv(NONE)
      ensures p == old(p).(depth := old(p.depth) - 1, checked := p.checked, isOrdered := p.isOrdered)
      ensures p.depth > 0 ==> p.isOrdered && ordered.root == old(ordered.root)
    {
      hide Good, Avl, Lookup, Updated;
      if p.depth == 1 {
        while p.checked != {}
          invariant Inv(NONE) && p == old(p).(checked := p.checked)
          decreases |p.checked|
        {
          var c :| c in p.checked;
          if c in p.live {
            ghost var tree := ordered.root;
            ordered.SetActive(c, Awaited(p, c));
            GoodActivity(p, tree, ordered.root, memory.world, notifications.directory, c, Awaited(p, c));
          }
          GoodChecked(p, ordered.root, memory.world, notifications.directory, p.checked - {c});
          p := p.(checked := p.checked - {c});
        }
      }
      GoodDepth(p, ordered.root, memory.world, notifications.directory, p.depth - 1);
      p := p.(depth := p.depth - 1);
      if p.depth == 0 && notifications.directory.paths == map[] && p.arming == p.fallback == p.publishing == {} {
        GoodUnordered(p, ordered.root, memory.world, notifications.directory);
        p := p.(isOrdered := false);
      }
    }

    /**
     * Moves everything forward that can move. However the worker's steps fall,
     * every completion that was unresolved or drained when this began has been
     * refreshed in admission order, or is gone.
     */
    method Advance() returns (refreshed: seq<nat>)
      requires Inv(NONE)
      modifies this`p, this`faults, this`rooms, this`script, memory, notifications, ordered
      ensures Inv(NONE) && Onward(old(Seen()), old(|script|), Seen(), |script|)
      ensures Completed(old(Seen()), refreshed, Seen()) && Increasing(refreshed)
      decreases |script|, 10
    {
      hide Good, Later, Avl, Onward, Lookup, Scanned, UrgentDone, Increasing, Within, Completed;
      ghost var v, n := Seen(), |script|;
      DepthOrdered(p, v.tree, v.w, notifications.directory, NONE);
      OnwardSelf(v, n);
      ScanBegins(v, -1);
      LiveBelow(p, v.tree, v.w, notifications.directory, NONE);
      if p.live == {} {
        CompletedEmpty(v);
        return [];
      }
      var terminal := IsTerminal();
      ghost var v1 := Seen();
      LaterOnward(v, n, v1.w);
      if terminal {
        refreshed := AdvanceTerminal(-1);
        CompletedScanned(v, v1, refreshed, Seen());
        OnwardTransitive(v, n, v1, n, Seen(), |script|);
        return;
      }
      if p.total >= MAX_SAFE_INTEGER || !p.isOrdered {
        refreshed := Scan(-1, false);
        CompletedScanned(v, v1, refreshed, Seen());
        OnwardTransitive(v, n, v1, n, Seen(), |script|);
        return;
      }
      GoodDepth(p, ordered.root, memory.world, notifications.directory, p.depth + 1);
      p := p.(depth := p.depth + 1);
      ghost var v2 := Seen();
      refreshed := Checkpoint();
      ghost var v3, n3 := Seen(), |script|;
      OnwardKeeps(v2, n, v3, n3, 0);
      DepthOrdered(p, v3.tree, v3.w, notifications.directory, NONE);
      CloseCheckpoint();
      OpenedOnward(v1, v2, n, v3, n3, Seen());
      OnwardTransitive(v, n, v1, n, Seen(), n3);
      CompletedServed(v, v2, n, refreshed, v3, n3, Seen());
    }
  }
}
