/**
 * What holds between any two steps of the consumer of GPU completions, and how
 * each of its own steps keeps it, on values.
 */
module ProgressSafety {
  import opened Options
  import opened Sequences
  import opened AdmissionIndex
  import opened ProgressWorld
  import opened ProgressPaths

  /**
   * Walks down the digits of the id, making the missing branches with new words.
   * If there is no room for one of them, those made before are unlinked again.
   */
  method BuildPath(start: Directory, c: nat, room: nat) returns (d: Directory, path: Path, built: bool)
    requires WellLinked(start) && Trim(start)
    ensures WellLinked(d) && d.paths == start.paths && (room >= 11 ==> built)
    ensures built ==> IsPath(path) && Descended(d, c, path, path[10].word) && TrimBut(d, path, 10)
    ensures !built ==> d == start.(serial := d.serial) && Trim(d)
  {
    hide *;
    if start.root.None? && room == 0 {
      return start, [], false;
    }
    WithRootLinked(start);
    MadeStarts(start);
    TrimStarts(start);
    RootKept(start);
    d := WithRoot(start);
    var left := if start.root.None? then room - 1 else room;
    var current := d.root.value;
    var created: seq<Mark> := [];
    path := [];
    RootDescended(d, c, current);
    for depth := 0 to 11
      invariant WellLinked(d) && d.paths == start.paths && d.root.Some? && d.root.value.Root? && Made(start, d, created)
      invariant |path| == depth && Descended(d, c, path, current) && (room >= 11 ==> left + depth >= 10)
      invariant if depth <= 10 then TrimBut(d, path, depth) else TrimBut(d, path, 10)
      invariant depth == 11 ==> IsPath(path) && path[10].word == current
    {
      var slot := Digit(c, depth);
      var m := Mark(current, slot);
      if depth < 10 {
        if m !in d.children && left == 0 {
          d := Unbuild(start, d, created);
          return d, [], false;
        }
        left := if m in d.children then left else left - 1;
        Descend(d, c, path, current, slot);
        TrimDescends(d, path, m);
        MadeMore(start, d, created, m);
        created := if m in d.children then created else created + [m];
        d := WithChild(d, m);
        path := path + [m];
        current := d.children[m];
      } else {
        DescendLeaf(d, c, path, current, m);
        TrimLonger(d, path, m);
        path := path + [m];
      }
    }
    built := true;
  }

  lemma TrimLonger(d: Directory, path: Path, m: Mark)
    requires |path| == 10 && TrimBut(d, path, 10)
    ensures TrimBut(d, path + [m], 10)
  {
    assert (path + [m])[..10] == path[..10];
  }

  /** Unlinks branches that were made in vain, the last one first. */
  method Unbuild(start: Directory, made: Directory, created: seq<Mark>) returns (d: Directory)
    requires WellLinked(start) && Trim(start) && Made(start, made, created)
    ensures d == start.(serial := made.serial) && WellLinked(d) && Trim(d)
  {
    hide *;
    d := made;
    var index := |created|;
    assert created[..index] == created;
    while index > 0
      invariant 0 <= index <= |created| && Made(start, d, created[..index]) && d.serial == made.serial
    {
      MadeLess(start, d, created[..index]);
      index := index - 1;
      assert created[..index + 1][..index] == created[..index];
      d := WithoutChild(d, created[index]);
    }
    MadeNothing(start, d, created[..index]);
    d := d.(root := start.root);
    SerialsLinked(start, made.serial);
  }

  lemma RootKept(d: Directory)
    requires WellLinked(d)
    ensures WithRoot(d).paths == d.paths && WithRoot(d).root.value.Root?
    ensures WithRoot(d).root.value.serial < WithRoot(d).serial
  {
  }

  lemma RootDescended(d: Directory, c: nat, current: Word)
    requires d.root == Some(current) && current.serial < d.serial
    ensures Descended(d, c, [], current)
  {
  }

  /** Unlinks the branches of a path from the leaf up, as long as they are vacant. */
  method Prune(ghost before: Directory, start: Directory, path: Path) returns (d: Directory)
    requires WellLinked(start) && |path| == 11 && IsPath(path) && TrimBut(start, path, 10) && Fewer(before, start)
    requires forall i :: 0 <= i < 10 ==> Leads(start, path, i)
    ensures WellLinked(d) && d.paths == start.paths && Trim(d) && Fewer(before, d)
  {
    hide *;
    d := start;
    var index := 10;
    while index > 0
      invariant 0 <= index <= 10
      invariant WellLinked(d) && d.paths == start.paths && |path| == 11 && TrimBut(d, path, index) && Fewer(before, d)
      invariant forall i :: 0 <= i < index ==> Leads(d, path, i)
    {
      if !Vacant(d, path[index].word) {
        TrimStops(d, path, index);
        return;
      }
      assert Leads(d, path, index - 1);
      PruneOne(d, path, index);
      TrimUnlinks(d, path, index);
      FewerLess(before, d, path[index - 1]);
      d := WithoutChild(d, path[index - 1]);
      index := index - 1;
    }
    TrimEmpty(d, path);
  }

  lemma PruneOne(d: Directory, path: Path, index: nat)
    requires WellLinked(d) && |path| == 11 && IsPath(path) && 0 < index <= 10 && Vacant(d, path[index].word)
    requires forall i :: 0 <= i < index ==> Leads(d, path, i)
    ensures var r := WithoutChild(d, path[index - 1]);
            && WellLinked(r) && r.paths == d.paths
            && forall i :: 0 <= i < index - 1 ==> Leads(r, path, i)
  {
    var r := WithoutChild(d, path[index - 1]);
    assert Leads(d, path, index - 1);
    WithoutChildLinked(d, path[index - 1], path[index].word);
    DepthOf(path, index - 1);
    forall i | 0 <= i < index - 1 ensures Leads(r, path, i) {
      DepthOf(path, i);
      assert Leads(d, path, i);
    }
    hide WellLinked, Vacant, IsPath;
  }

  function PathOf(d: Directory, c: nat): Option<Path> { if c in d.paths then Some(d.paths[c]) else None }

  ghost predicate Records(d: Directory, w: World) { forall c: nat :: RequestOf(w, c).path == PathOf(d, c) }

  lemma SameRecords(d: Directory, d': Directory, w: World)
    requires Records(d, w) && d'.paths == d.paths
    ensures Records(d', w)
  {
    forall b: nat ensures RequestOf(w, b).path == PathOf(d', b) {
      assert RequestOf(w, b).path == PathOf(d, b);
    }
  }

  lemma EnrollRecords(d: Directory, d': Directory, w: World, c: nat, path: Path)
    requires Records(d, w) && d'.paths == d.paths[c := path]
    ensures Records(d', Enroll(w, c, path))
  {
    forall b: nat ensures RequestOf(Enroll(w, c, path), b).path == PathOf(d', b) {
      assert RequestOf(w, b).path == PathOf(d, b);
    }
  }

  lemma UnenrollRecords(d: Directory, d': Directory, w: World, c: nat)
    requires Records(d, w) && d'.paths == d.paths - {c}
    ensures Records(d', Unenroll(w, c))
  {
    forall b: nat ensures RequestOf(Unenroll(w, c), b).path == PathOf(d', b) {
      assert RequestOf(w, b).path == PathOf(d, b);
    }
  }

  lemma EntryLeads(d: Directory, c: nat)
    requires WellLinked(d) && c in d.paths && |d.paths[c]| == 11
    ensures forall i :: 0 <= i < 10 ==> Leads(WithoutEntry(d, c), d.paths[c], i)
  {
    assert Linked(d, c);
    forall i | 0 <= i < 10 ensures Leads(WithoutEntry(d, c), d.paths[c], i) {
      assert Leads(d, d.paths[c], i);
    }
  }

  lemma EmptyLinked(serial: nat)
    ensures var d := Directory(None, map[], map[], map[], serial); WellLinked(d) && Trim(d)
  {
  }

  /** The consumer's private record of its completions; the last fields are the completions' own. */
  datatype Pending = Pending(
    total: nat, live: set<nat>, unresolved: set<nat>, arming: set<nat>, fallback: set<nat>, publishing: set<nat>,
    changed: set<nat>, checked: set<nat>, depth: nat, isOrdered: bool, resolved: set<nat>, retired: set<nat>)

  /** What an operation in progress has not restored yet. */
  datatype Exempt = Exempt(
    failing: set<nat>, waking: set<nat>, handled: set<nat>, taken: set<nat>, hole: Option<Mark>)

  const NONE := Exempt({}, {}, {}, {}, None)

  function Observing(p: Pending): Observed { Observed(p.arming, p.publishing, p.changed) }

  predicate Awaited(p: Pending, c: nat) {
    c in p.unresolved || c in p.arming || c in p.fallback || c in p.publishing || c in p.changed
  }

  /** Every live completion is unresolved, enrolled, or always inspected. */
  predicate Tracked(p: Pending, d: Directory, failing: set<nat>, c: nat) {
    && (c in p.live ==>
          && c < p.total && c !in p.retired && (c !in p.resolved ==> c in p.unresolved)
          && (c in p.resolved && c !in failing ==> c in p.fallback || c in d.paths))
    && (c in d.paths ==> c in p.live && c in p.resolved && c !in p.unresolved && c < MAX_SAFE_INTEGER)
    && (c in p.arming ==> c in d.paths) && (c in p.publishing ==> c in p.live && c in p.resolved)
    && (c in p.resolved || c in p.retired ==> c < p.total)
  }

  /** The index holds every live id, and an inactive one awaits nothing. */
  predicate Indexed(p: Pending, tree: Tree, waking: set<nat>, c: nat) {
    p.isOrdered ==>
      && (Lookup(tree, c).Some? <==> c in p.live && c < MAX_SAFE_INTEGER)
      && (Lookup(tree, c) == Some(false) && c !in waking ==> !Awaited(p, c))
  }

  ghost predicate Consistent(p: Pending, tree: Tree, w: World, d: Directory, failing: set<nat>, waking: set<nat>) {
    && (forall c: nat :: Tracked(p, d, failing, c))
    && (forall c: nat :: Indexed(p, tree, waking, c))
    && (forall c: nat :: RequestOf(w, c).subscribed ==> c in p.resolved)
    && (!p.isOrdered ==> d.paths == map[] && p.depth == 0)
    && (p.depth == 0 ==> p.checked == {})
  }

  /** What other steps than the consumer's own leave as it is. */
  lemma ConsistentLater(p: Pending, tree: Tree, w: World, w': World, d: Directory, failing: set<nat>, waking: set<nat>)
    requires Consistent(p, tree, w, d, failing, waking) && Records(d, w) && Later(w, w')
    ensures Consistent(p, tree, w', d, failing, waking) && Records(d, w')
  {
    forall c: nat ensures RequestOf(w', c).path == RequestOf(w, c).path
      ensures RequestOf(w', c).subscribed == RequestOf(w, c).subscribed
    {
      assert After(RequestOf(w, c), RequestOf(w', c));
    }
    hide Tracked, Indexed;
  }

  /** Statuses, drains and retirements are never taken back. */
  predicate Kept(r: Request, r': Request) {
    && (r.drained ==> r'.drained) && (r.acknowledged ==> r'.acknowledged) && (r.status != 0 ==> r'.status != 0)
  }

  ghost predicate Grows(w: World, w': World) {
    && (forall c: nat :: Kept(RequestOf(w, c), RequestOf(w', c)))
    && (w.generation ==> w'.generation) && (w.accounted ==> w'.accounted)
  }

  lemma LaterGrows(w: World, w': World)
    requires Later(w, w')
    ensures Grows(w, w')
    ensures forall c: nat :: RequestOf(w', c).reach <= RequestOf(w, c).reach
  {
    forall c: nat
      ensures Kept(RequestOf(w, c), RequestOf(w', c)) && RequestOf(w', c).reach <= RequestOf(w, c).reach
    {
      assert After(RequestOf(w, c), RequestOf(w', c));
    }
  }

  lemma GrowsTransitive(a: World, b: World, c: World)
    requires Grows(a, b) && Grows(b, c)
    ensures Grows(a, c)
  {
    forall d: nat ensures Kept(RequestOf(a, d), RequestOf(c, d)) {
      assert Kept(RequestOf(a, d), RequestOf(b, d)) && Kept(RequestOf(b, d), RequestOf(c, d));
    }
  }

  /** After a change notice: noted as changed, and as publishing exactly if the flag is up. */
  function Noted(p: Pending, c: nat, flag: bool): Pending {
    p.(changed := p.changed + {c}, publishing := if flag then p.publishing + {c} else p.publishing - {c})
  }

  /** The flag is read after the leaf was taken, so a publication it does not show is over. */
  lemma NotedSafe(w: World, p: Pending, c: nat)
    requires Coherent(w, None) && Safe(w, Observing(p), {c}, {c})
    ensures Safe(w, Observing(Noted(p, c, RequestOf(w, c).publishing)), {}, {})
  {
    var o := Observing(p);
    var o' := Observing(Noted(p, c, RequestOf(w, c).publishing));
    forall d: nat ensures Covered(RequestOf(w, d), AttentionTo(o', d), d in {}, d in {}) {
      assert Proper(RequestOf(w, d)) && Covered(RequestOf(w, d), AttentionTo(o, d), d in {c}, d in {c});
      if d != c {
        assert AttentionTo(o', d) == AttentionTo(o, d);
      }
    }
  }

  /** The index with one entry active again. */
  ghost predicate WokenUp(tree: Tree, tree': Tree, c: nat) {
    Updated(tree, tree', c, if Lookup(tree, c).Some? then Some(true) else None)
  }

  lemma Woken(tree: Tree, tree': Tree, c: nat)
    requires Updated(tree, tree', c, if Lookup(tree, c).Some? then Some(true) else None)
    ensures WokenUp(tree, tree', c)
  {
  }

  lemma NotedConsistent(p: Pending, tree: Tree, tree': Tree, w: World, d: Directory, c: nat, flag: bool)
    requires Consistent(p, tree, w, d, {}, {c}) && c in d.paths
    requires WokenUp(tree, tree', c)
    ensures Consistent(Noted(p, c, flag), tree', w, d, {}, {})
  {
    var p' := Noted(p, c, flag);
    forall b: nat ensures Tracked(p', d, {}, b) && Indexed(p', tree', {}, b) {
      assert Tracked(p, d, {}, b) && Indexed(p, tree, {c}, b);
    }
  }

  /** Everything that holds between two operations, but for what e exempts. */
  ghost predicate Good(p: Pending, tree: Tree, w: World, d: Directory, e: Exempt) {
    && WellLinked(d) && Records(d, w) && Coherent(w, e.hole) && Safe(w, Observing(p), e.handled, e.taken)
    && Consistent(p, tree, w, d, e.failing, e.waking)
  }

  lemma GoodLater(p: Pending, tree: Tree, w: World, w': World, d: Directory, e: Exempt)
    requires Good(p, tree, w, d, e) && Later(w, w')
    requires Coherent(w', e.hole) && Safe(w', Observing(p), e.handled, e.taken)
    ensures Good(p, tree, w', d, e)
  {
    hide Coherent, Safe, Consistent, Records, Later, WellLinked;
    ConsistentLater(p, tree, w, w', d, e.failing, e.waking);
  }

  lemma ChangeBegins(p: Pending, tree: Tree, w: World, d: Directory, c: nat)
    requires c in d.paths && Good(p, tree, w, d, NONE.(handled := {c}, taken := {c}))
    ensures Good(p.(changed := p.changed + {c}), tree, w, d, NONE.(handled := {c}, taken := {c}, waking := {c}))
  {
    hide Proper, Reached, Linked, Branched, Entered;
    var p' := p.(changed := p.changed + {c});
    forall b: nat ensures Tracked(p', d, {}, b) && Indexed(p', tree, {c}, b) {
      assert Tracked(p, d, {}, b) && Indexed(p, tree, {}, b);
    }
    forall b: nat ensures Covered(RequestOf(w, b), AttentionTo(Observing(p'), b), b in {c}, b in {c}) {
      assert Covered(RequestOf(w, b), AttentionTo(Observing(p), b), b in {c}, b in {c});
    }
  }

  lemma ChangeEnds(p: Pending, tree: Tree, tree': Tree, w: World, d: Directory, c: nat)
    requires c in d.paths && WokenUp(tree, tree', c)
    requires Good(p, tree, w, d, NONE.(handled := {c}, taken := {c}, waking := {c}))
    ensures Good(Noted(p, c, RequestOf(w, c).publishing), tree', w, d, NONE)
  {
    hide Coherent, Safe, Consistent, Records, WellLinked, WokenUp, Noted, RequestOf;
    NotedSafe(w, p, c);
    NotedConsistent(p, tree, tree', w, d, c, RequestOf(w, c).publishing);
  }

  function Cleared(w: World, m: Mark): World { w.(words := Clear(w.words, m)) }

  function Set(w: World, m: Mark): World { w.(words := Or(w.words, m)) }

  /** Clearing and setting a bit concerns no other word. */
  lemma BitsRechecked(words: Words, m: Mark)
    ensures !IsSet(Clear(words, m), m) && IsSet(Or(Clear(words, m), m), m)
    ensures forall word: Word :: word != m.word ==>
              Bits(Or(Clear(words, m), m), word) == Bits(Clear(words, m), word) == Bits(words, word)
  {
  }

  lemma ChildApart(p: Pending, tree: Tree, w: World, d: Directory, m: Mark)
    requires Good(p, tree, w, d, NONE)
    ensures m in d.children ==> d.children[m] != m.word
  {
    if m in d.children {
      assert Branched(d, m);
    }
    hide Coherent, Safe, Records, Consistent;
  }

  lemma SameRequests(p: Pending, tree: Tree, w: World, w': World, d: Directory, e: Exempt, e': Exempt)
    requires Good(p, tree, w, d, e) && w'.requests == w.requests && Coherent(w', e'.hole)
    requires e' == e.(hole := e'.hole)
    ensures Good(p, tree, w', d, e')
  {
    hide Proper, Reached, Covered, Linked, Branched, Entered, Tracked, Indexed;
    forall c: nat ensures RequestOf(w', c) == RequestOf(w, c) {
    }
    assert Safe(w', Observing(p), e.handled, e.taken) by {
      forall c: nat
        ensures Covered(RequestOf(w', c), AttentionTo(Observing(p), c), c in e.handled, c in e.taken)
      {
        assert Covered(RequestOf(w, c), AttentionTo(Observing(p), c), c in e.handled, c in e.taken);
      }
    }
    assert Records(d, w') by {
      forall c: nat ensures RequestOf(w', c).path == PathOf(d, c) {
        assert RequestOf(w, c).path == PathOf(d, c);
      }
    }
  }

  /** The consumer has cleared a branch bit and not yet looked at the branch below. */
  lemma GoodCleared(p: Pending, tree: Tree, w: World, d: Directory, m: Mark)
    requires Good(p, tree, w, d, NONE)
    ensures Good(p, tree, Cleared(w, m), d, NONE.(hole := Some(m)))
  {
    hide Coherent, Good;
    assert Coherent(w, None) by { CoherentOf(p, tree, w, d, NONE); }
    ClearBranchCoherent(w, m);
    SameRequests(p, tree, w, Cleared(w, m), d, NONE, NONE.(hole := Some(m)));
  }

  lemma CoherentOf(p: Pending, tree: Tree, w: World, d: Directory, e: Exempt)
    requires Good(p, tree, w, d, e)
    ensures Coherent(w, e.hole) && Records(d, w) && WellLinked(d)
  {
  }

  /** Setting the bit again, having found the branch below in use. */
  lemma GoodSet(p: Pending, tree: Tree, w: World, d: Directory, m: Mark)
    requires Good(p, tree, w, d, NONE.(hole := Some(m)))
    ensures Good(p, tree, Set(w, m), d, NONE)
  {
    hide Coherent, Good;
    CoherentOf(p, tree, w, d, NONE.(hole := Some(m)));
    OrCloses(w, m, Some(m));
    SameRequests(p, tree, w, Set(w, m), d, NONE.(hole := Some(m)), NONE);
  }

  /** No enrolled path passes this mark. */
  predicate Unused(d: Directory, m: Mark) { forall c :: c in d.paths ==> m !in d.paths[c] }

  /** A mark that leads nowhere is unused. */
  lemma AbsentUnused(d: Directory, m: Mark)
    requires WellLinked(d)
    requires if Depth(m.word) == 10 then m !in d.entries else m !in d.children
    ensures Unused(d, m)
  {
    forall c | c in d.paths ensures m !in d.paths[c] {
      assert Linked(d, c);
      forall i | 0 <= i < 11 ensures d.paths[c][i] != m {
        DepthOf(d.paths[c], i);
        assert i < 10 ==> Leads(d, d.paths[c], i);
      }
    }
  }

  lemma GoodAbsent(p: Pending, tree: Tree, w: World, d: Directory, m: Mark)
    requires Good(p, tree, w, d, NONE.(hole := Some(m))) && Unused(d, m)
    ensures Good(p, tree, w, d, NONE)
  {
    hide Proper, Linked, Branched, Entered, IsSet;
    forall c: nat ensures Proper(RequestOf(w, c)) && Reached(w.words, RequestOf(w, c), None) {
      var r := RequestOf(w, c);
      assert Proper(r) && Reached(w.words, r, Some(m)) && r.path == PathOf(d, c);
      if r.path.Some? && |r.path.value| == 11 {
        forall i | r.reach <= i < 11 ensures IsSet(w.words, r.path.value[i]) {
          var x := r.path.value[i];
          assert IsSet(w.words, x) || Some(m) == Some(x);
        }
      }
    }
    SameRequests(p, tree, w, w, d, NONE.(hole := Some(m)), NONE);
  }

  /** Nothing below the cleared bit is marked as far as the branch, so nothing is lost. */
  lemma GoodEmptyChild(p: Pending, tree: Tree, w: World, d: Directory, m: Mark)
    requires Good(p, tree, w, d, NONE.(hole := Some(m)))
    requires Depth(m.word) < 10 && m in d.children && Bits(w.words, d.children[m]) == {}
    ensures Good(p, tree, w, d, NONE)
  {
    hide Proper, Linked, Branched, Entered;
    forall c: nat ensures Proper(RequestOf(w, c)) && Reached(w.words, RequestOf(w, c), None) {
      var r := RequestOf(w, c);
      assert Proper(r) && Reached(w.words, r, Some(m)) && r.path == PathOf(d, c);
      if c in d.paths {
        ChildMarked(d, w, c, m);
      }
    }
    SameRequests(p, tree, w, w, d, NONE.(hole := Some(m)), NONE);
  }

  lemma ChildMarked(d: Directory, w: World, c: nat, m: Mark)
    requires WellLinked(d) && c in d.paths && RequestOf(w, c).path == Some(d.paths[c])
    requires Reached(w.words, RequestOf(w, c), Some(m))
    requires Depth(m.word) < 10 && m in d.children && Bits(w.words, d.children[m]) == {}
    ensures Reached(w.words, RequestOf(w, c), None)
  {
    assert Linked(d, c);
    var path, r := d.paths[c], RequestOf(w, c);
    forall i | r.reach <= i < 11 ensures IsSet(w.words, path[i]) {
      assert IsSet(w.words, path[i]) || Some(m) == Some(path[i]);
      DepthOf(path, i);
      if i < 10 {
        DepthOf(path, i + 1);
        assert Leads(d, path, i);
        assert IsSet(w.words, path[i + 1]) || Some(m) == Some(path[i + 1]);
      }
    }
  }

  /** The leaf bit of an enrolled completion is taken. */
  lemma GoodTaken(p: Pending, tree: Tree, w: World, d: Directory, m: Mark)
    requires Good(p, tree, w, d, NONE) && m in d.entries
    ensures d.entries[m] in d.paths
    ensures Good(p, tree, TakeLeaf(w, d.entries[m], m), d, NONE.(handled := {d.entries[m]}, taken := {d.entries[m]}))
  {
    hide Proper, Reached, Linked, Branched, Tracked, Indexed;
    var c := d.entries[m];
    assert Entered(d, m);
    var w' := TakeLeaf(w, c, m);
    LeafUnshared(d, w, m);
    TakeLeafCoherent(w, c, m);
    forall b: nat
      ensures Covered(RequestOf(w', b), AttentionTo(Observing(p), b), b in {c}, b in {c})
    {
      assert Covered(RequestOf(w, b), AttentionTo(Observing(p), b), b in {}, b in {});
    }
    assert Records(d, w') by {
      forall b: nat ensures RequestOf(w', b).path == PathOf(d, b) {
        assert RequestOf(w, b).path == PathOf(d, b);
      }
    }
    ConsistentLike(p, tree, w, w', d, {}, {});
  }

  lemma ConsistentLike(p: Pending, tree: Tree, w: World, w': World, d: Directory, failing: set<nat>, waking: set<nat>)
    requires Consistent(p, tree, w, d, failing, waking)
    requires forall c: nat :: RequestOf(w', c).subscribed == RequestOf(w, c).subscribed
    ensures Consistent(p, tree, w', d, failing, waking)
  {
    hide Tracked, Indexed;
  }

  lemma LeafUnshared(d: Directory, w: World, m: Mark)
    requires WellLinked(d) && Records(d, w) && m in d.entries
    ensures Unshared(w, d.entries[m], m)
  {
    var c := d.entries[m];
    assert Entered(d, m);
    forall b: nat | b != c && RequestOf(w, b).path.Some? && |RequestOf(w, b).path.value| == 11
      ensures m !in RequestOf(w, b).path.value
    {
      assert RequestOf(w, b).path == PathOf(d, b);
      forall i | 0 <= i < 11 ensures RequestOf(w, b).path.value[i] != m {
        LeavesDiffer(d, c, b, i);
      }
    }
  }

  /** One of the consumer's own marks for a change it has already reported. */
  function MarkOwn(w: World, c: nat, path: Path, i: nat): World
    requires i < |path|
  {
    WithRequest(w.(words := Or(w.words, path[i])), c, Marked(RequestOf(w, c), path, i))
  }

  lemma GoodOwnMark(p: Pending, tree: Tree, w: World, d: Directory, c: nat, i: nat)
    requires c in d.paths && i < |d.paths[c]| == 11
    requires Good(p, tree, w, d, NONE.(handled := {c}, taken := {c})) && RequestOf(w, c).reach <= i + 1
    ensures Good(p, tree, MarkOwn(w, c, d.paths[c], i), d, NONE.(handled := {c}, taken := {c}))
    ensures RequestOf(MarkOwn(w, c, d.paths[c], i), c).reach <= i
  {
    hide Linked, Branched, Entered, Tracked, Indexed, IsSet, Or;
    var path := d.paths[c];
    var w' := MarkOwn(w, c, path, i);
    assert RequestOf(w, c).path == PathOf(d, c);
    forall b: nat
      ensures Proper(RequestOf(w', b)) && Reached(w'.words, RequestOf(w', b), None)
      ensures Covered(RequestOf(w', b), AttentionTo(Observing(p), b), b in {c}, b in {c})
      ensures RequestOf(w', b).path == PathOf(d, b) && RequestOf(w', b).subscribed == RequestOf(w, b).subscribed
    {
      assert Proper(RequestOf(w, b)) && Reached(w.words, RequestOf(w, b), None);
      assert Covered(RequestOf(w, b), AttentionTo(Observing(p), b), b in {c}, b in {c});
      assert RequestOf(w, b).path == PathOf(d, b);
      ReachedMore(w.words, RequestOf(w, b), path[i]);
    }
    ConsistentLike(p, tree, w, w', d, {}, {});
  }

  lemma ReachedMore(words: Words, r: Request, m: Mark)
    requires Reached(words, r, None)
    ensures Reached(Or(words, m), r, None) && IsSet(Or(words, m), m)
  {
    OrKeeps(words, m, m);
    if r.path.Some? && |r.path.value| == 11 {
      forall i | r.reach <= i < 11 ensures IsSet(Or(words, m), r.path.value[i]) {
        OrKeeps(words, m, r.path.value[i]);
      }
    }
    hide IsSet, Or;
  }

  /** Marked completely again, the completion is as safe as before its bit was taken. */
  lemma GoodRemarked(p: Pending, tree: Tree, w: World, d: Directory, c: nat)
    requires Good(p, tree, w, d, NONE.(handled := {c}, taken := {c})) && RequestOf(w, c).reach == 0
    ensures Good(p, tree, w, d, NONE)
  {
    hide Proper, Reached, Linked, Branched, Entered, Tracked, Indexed;
    forall b: nat ensures Covered(RequestOf(w, b), AttentionTo(Observing(p), b), b in {}, b in {}) {
      assert Covered(RequestOf(w, b), AttentionTo(Observing(p), b), b in {c}, b in {c});
    }
  }

  const EMPTY := Pending(0, {}, {}, {}, {}, {}, {}, {}, 0, false, {}, {})

  lemma EmptyConsistent(w: World, tree: Tree, d: Directory)
    requires w == World(map[], map[], false, false) && d.paths == map[]
    ensures Coherent(w, None) && Safe(w, Observing(EMPTY), {}, {}) && Consistent(EMPTY, tree, w, d, {}, {})
  {
    forall c: nat ensures RequestOf(w, c) == FRESH {
    }
  }

  lemma NotedTwice(p: Pending, c: nat, flag: bool)
    ensures Noted(p.(changed := p.changed + {c}), c, flag) == Noted(p, c, flag)
  {
    assert p.changed + {c} + {c} == p.changed + {c};
  }

  /** Nothing is taken back and no recorded level is lost. */
  ghost predicate Forward(w: World, w': World) {
    Grows(w, w') && forall c: nat :: RequestOf(w', c).reach <= RequestOf(w, c).reach
  }

  lemma WordsForward(w: World, w': World)
    requires w'.requests == w.requests && w'.generation == w.generation && w'.accounted == w.accounted
    ensures Forward(w, w')
  {
    forall c: nat ensures RequestOf(w', c) == RequestOf(w, c) {
    }
  }

  lemma ForwardTransitive(a: World, b: World, c: World)
    requires Forward(a, b) && Forward(b, c)
    ensures Forward(a, c)
  {
    GrowsTransitive(a, b, c);
    forall d: nat ensures RequestOf(c, d).reach <= RequestOf(a, d).reach {
      assert RequestOf(b, d).reach <= RequestOf(a, d).reach;
    }
    hide Grows;
  }

  lemma LaterForward(w: World, w': World)
    requires Later(w, w')
    ensures Forward(w, w')
  {
    LaterGrows(w, w');
  }

  /** Steps of the worker between two of the consumer's own. */
  lemma ForwardTwice(w0: World, w1: World, w2: World, w3: World, w4: World)
    requires Later(w0, w1) && Forward(w1, w2) && (w2 == w3 || Later(w2, w3)) && (w3 == w4 || Forward(w3, w4))
    ensures Forward(w0, w4)
  {
    LaterForward(w0, w1);
    ForwardTransitive(w0, w1, w2);
    if w2 != w3 {
      LaterForward(w2, w3);
      ForwardTransitive(w0, w2, w3);
    }
    if w3 != w4 {
      ForwardTransitive(w0, w3, w4);
    }
    hide Forward, Later;
  }

  ghost predicate StaysActive(tree: Tree, tree': Tree) {
    forall c: nat :: Activated(tree, c) ==> Activated(tree', c)
  }

  /** What the consumer sees and changes together: the world, the index and its record. */
  datatype View = View(w: World, tree: Tree, p: Pending)

  /** From v to v' the completions of seen beyond visited were reported, once each, and nothing else was taken. */
  ghost predicate Reported(v: View, visited: seq<nat>, v': View, seen: seq<nat>) {
    && visited <= seen && (Distinct(visited) ==> Distinct(seen))
    && Grows(v.w, v'.w)
    && (forall c: nat :: c in seen || RequestOf(v'.w, c).reach <= RequestOf(v.w, c).reach)
    && v'.p == v.p.(changed := v'.p.changed, publishing := v'.p.publishing) && v.p.changed <= v'.p.changed
    && StaysActive(v.tree, v'.tree)
    && (forall c: nat :: c in seen && c !in visited ==> Activated(v'.tree, c))
  }

  lemma ReportedNothing(v: View, v': View, visited: seq<nat>)
    requires Forward(v.w, v'.w) && v'.tree == v.tree && v'.p == v.p
    ensures Reported(v, visited, v', visited)
  {
  }

  lemma ReportedTransitive(a: View, s: seq<nat>, b: View, t: seq<nat>, c: View, u: seq<nat>)
    requires Reported(a, s, b, t) && Reported(b, t, c, u)
    ensures Reported(a, s, c, u)
  {
    GrowsTransitive(a.w, b.w, c.w);
    hide Grows, Lookup;
    assert forall x: nat :: x in t ==> x in u;
    forall x: nat ensures x in u || RequestOf(c.w, x).reach <= RequestOf(a.w, x).reach {
      assert x in t || RequestOf(b.w, x).reach <= RequestOf(a.w, x).reach;
      assert x in u || RequestOf(c.w, x).reach <= RequestOf(b.w, x).reach;
    }
  }

  /** One completion is taken and noted. */
  lemma ReportedOne(v: View, w1: World, w2: World, v': View, visited: seq<nat>, c: nat, flag: bool)
    requires Later(v.w, w1) && Later(w2, v'.w)
    requires w2.requests == w1.requests[c := RequestOf(w1, c).(reach := 11)]
    requires w2.generation == w1.generation && w2.accounted == w1.accounted
    requires c !in visited && v'.p == Noted(v.p, c, flag) && WokenUp(v.tree, v'.tree, c) && Lookup(v.tree, c).Some?
    ensures Reported(v, visited, v', visited + [c])
  {
    LaterGrows(v.w, w1);
    LaterGrows(w2, v'.w);
    forall b: nat
      ensures Kept(RequestOf(v.w, b), RequestOf(v'.w, b))
      ensures b == c || RequestOf(v'.w, b).reach <= RequestOf(v.w, b).reach
    {
      assert Kept(RequestOf(v.w, b), RequestOf(w1, b)) && Kept(RequestOf(w2, b), RequestOf(v'.w, b));
      assert RequestOf(w1, b).reach <= RequestOf(v.w, b).reach;
      assert RequestOf(v'.w, b).reach <= RequestOf(w2, b).reach;
    }
    hide Later, Grows;
    assert c in visited + [c];
  }

  /** One completion is taken and marked again, already being in the list. */
  lemma ReportedAgain(v: View, w1: World, w2: World, w3: World, visited: seq<nat>, c: nat)
    requires Later(v.w, w1) && Forward(w2, w3)
    requires w2.requests == w1.requests[c := RequestOf(w1, c).(reach := 11)]
    requires w2.generation == w1.generation && w2.accounted == w1.accounted
    requires c in visited
    ensures Reported(v, visited, v.(w := w3), visited)
  {
    LaterGrows(v.w, w1);
    forall b: nat
      ensures Kept(RequestOf(v.w, b), RequestOf(w3, b))
      ensures b == c || RequestOf(w3, b).reach <= RequestOf(v.w, b).reach
    {
      assert Kept(RequestOf(v.w, b), RequestOf(w1, b)) && Kept(RequestOf(w2, b), RequestOf(w3, b));
      assert RequestOf(w1, b).reach <= RequestOf(v.w, b).reach;
      assert RequestOf(w3, b).reach <= RequestOf(w2, b).reach;
    }
    hide Later, Grows;
  }

  /** The bit of a leaf that some mark reached is set. */
  lemma LeafSet(p: Pending, tree: Tree, w: World, d: Directory, m: Mark)
    requires Good(p, tree, w, d, NONE) && m in d.entries && RequestOf(w, d.entries[m]).reach <= 10
    ensures IsSet(w.words, m)
  {
    var c := d.entries[m];
    assert Entered(d, m) && Linked(d, c) && RequestOf(w, c).path == PathOf(d, c);
    assert Reached(w.words, RequestOf(w, c), None);
    var x := d.paths[c][10];
    assert IsSet(w.words, x) || None == Some(x);
  }

  lemma EntryIndexed(p: Pending, tree: Tree, w: World, d: Directory, m: Mark, e: Exempt)
    requires Good(p, tree, w, d, e) && m in d.entries
    ensures d.entries[m] in d.paths && Lookup(tree, d.entries[m]).Some?
  {
    assert Entered(d, m) && Tracked(p, d, e.failing, d.entries[m]) && Indexed(p, tree, e.waking, d.entries[m]);
  }

  lemma GoodClearedLeaf(p: Pending, tree: Tree, w: World, d: Directory, m: Mark)
    requires Good(p, tree, w, d, NONE) && m !in d.entries && Depth(m.word) == 10
    ensures Good(p, tree, Cleared(w, m), d, NONE)
  {
    hide Good;
    GoodCleared(p, tree, w, d, m);
    CoherentOf(p, tree, w, d, NONE);
    AbsentUnused(d, m);
    GoodAbsent(p, tree, Cleared(w, m), d, m);
  }

  lemma PathLength(p: Pending, tree: Tree, w: World, d: Directory, c: nat, e: Exempt)
    requires Good(p, tree, w, d, e) && c in d.paths
    ensures |d.paths[c]| == 11
  {
    assert Linked(d, c);
  }

  lemma ReachKept(w: World, w': World, c: nat)
    requires Later(w, w')
    ensures RequestOf(w', c).reach <= RequestOf(w, c).reach
  {
    assert After(RequestOf(w, c), RequestOf(w', c));
  }

  lemma MarkForward(w: World, c: nat, path: Path, i: nat)
    requires i < |path|
    ensures Forward(w, MarkOwn(w, c, path, i))
  {
    var w' := MarkOwn(w, c, path, i);
    forall b: nat
      ensures Kept(RequestOf(w, b), RequestOf(w', b)) && RequestOf(w', b).reach <= RequestOf(w, b).reach
    {
    }
  }

  lemma TakenRequests(w: World, c: nat, m: Mark)
    ensures var w' := TakeLeaf(w, c, m);
            && w'.requests == w.requests[c := RequestOf(w, c).(reach := 11)]
            && w'.generation == w.generation && w'.accounted == w.accounted
            && RequestOf(w', c).reach == 11
  {
  }

  /** The enrolled completion c lies below this branch. */
  predicate Under(d: Directory, c: nat, depth: nat, branch: Word) {
    c in d.paths && depth < |d.paths[c]| && d.paths[c][depth].word == branch
  }

  /** Every completion below the branch that was marked this far is reported, or still ahead in the bits. */
  ghost predicate Remaining(d: Directory, start: World, w: World, branch: Word, depth: nat, bits: set<Slot>,
                            seen: seq<nat>)
  {
    forall c: nat :: Under(d, c, depth, branch) && RequestOf(start, c).reach <= depth ==>
      c in seen || (d.paths[c][depth].slot in bits && RequestOf(w, c).reach <= depth)
  }

  lemma RemainingBegins(p: Pending, tree: Tree, start: World, w: World, d: Directory, branch: Word, depth: nat,
                        seen: seq<nat>)
    requires Good(p, tree, w, d, NONE) && Forward(start, w) && depth <= 10
    ensures Remaining(d, start, w, branch, depth, Bits(w.words, branch), seen)
  {
    hide Proper, Linked, Branched, Entered, Tracked, Indexed, Grows, IsPath;
    forall c: nat | Under(d, c, depth, branch) && RequestOf(start, c).reach <= depth
      ensures d.paths[c][depth].slot in Bits(w.words, branch) && RequestOf(w, c).reach <= depth
    {
      PathLength(p, tree, w, d, c, NONE);
      assert RequestOf(w, c).path == PathOf(d, c);
      assert Reached(w.words, RequestOf(w, c), None);
      var x := d.paths[c][depth];
      assert IsSet(w.words, x) || None == Some(x);
    }
  }

  /** Every completion below the branch that was marked this far. */
  ghost predicate BranchDone(d: Directory, w: World, branch: Word, depth: nat, seen: seq<nat>) {
    forall c: nat :: Under(d, c, depth, branch) && RequestOf(w, c).reach <= depth ==> c in seen
  }

  lemma RemainingEnds(d: Directory, start: World, w: World, branch: Word, depth: nat, seen: seq<nat>)
    requires Remaining(d, start, w, branch, depth, {}, seen)
    ensures BranchDone(d, start, branch, depth, seen)
  {
  }

  /** The completions below one slot of the branch. */
  ghost predicate SlotDone(d: Directory, w: World, m: Mark, depth: nat, seen: seq<nat>) {
    forall c: nat :: Under(d, c, depth, m.word) && d.paths[c][depth] == m && RequestOf(w, c).reach <= depth ==>
        c in seen
  }

  lemma RemainingStep(d: Directory, start: World, v: View, v': View, m: Mark, depth: nat, bits: set<Slot>,
                      seen: seq<nat>, seen': seq<nat>)
    requires Remaining(d, start, v.w, m.word, depth, bits, seen)
    requires Reported(v, seen, v', seen') && SlotDone(d, v.w, m, depth, seen')
    ensures Remaining(d, start, v'.w, m.word, depth, bits - {m.slot}, seen')
  {
    hide Grows, StaysActive, Distinct;
    forall c: nat | Under(d, c, depth, m.word) && RequestOf(start, c).reach <= depth
      ensures c in seen' || (d.paths[c][depth].slot in bits - {m.slot} && RequestOf(v'.w, c).reach <= depth)
    {
      assert c in seen' || RequestOf(v'.w, c).reach <= RequestOf(v.w, c).reach;
      assert c in seen ==> c in seen';
    }
  }

  /** Below a slot without a branch there is nothing. */
  lemma SlotEmpty(p: Pending, tree: Tree, w: World, d: Directory, m: Mark, depth: nat, seen: seq<nat>)
    requires Good(p, tree, w, d, NONE) && Depth(m.word) == depth < 10 && m !in d.children
    ensures SlotDone(d, w, m, depth, seen)
  {
    AbsentUnused(d, m);
  }

  /** A walk of the branch below covers the slot. */
  lemma SlotWalked(p: Pending, tree: Tree, w: World, d: Directory, m: Mark, depth: nat, seen: seq<nat>)
    requires Good(p, tree, w, d, NONE) && Depth(m.word) == depth < 10 && m in d.children
    requires BranchDone(d, w, d.children[m], depth + 1, seen)
    ensures SlotDone(d, w, m, depth, seen)
  {
    forall c: nat | Under(d, c, depth, m.word) && d.paths[c][depth] == m && RequestOf(w, c).reach <= depth
      ensures c in seen
    {
      assert Linked(d, c);
      assert Leads(d, d.paths[c], depth);
    }
  }

  lemma ChildDepth(p: Pending, tree: Tree, w: World, d: Directory, m: Mark)
    requires Good(p, tree, w, d, NONE) && m in d.children
    ensures Depth(d.children[m]) == Depth(m.word) + 1
  {
    assert Branched(d, m);
  }

  lemma LeafDone(p: Pending, tree: Tree, w: World, d: Directory, m: Mark, seen: seq<nat>)
    requires Good(p, tree, w, d, NONE) && Depth(m.word) == 10
    requires m in d.entries && RequestOf(w, d.entries[m]).reach <= 10 ==> d.entries[m] in seen
    ensures SlotDone(d, w, m, 10, seen)
  {
    forall c: nat | Under(d, c, 10, m.word) && d.paths[c][10] == m && RequestOf(w, c).reach <= 10
      ensures c in seen
    {
      assert Linked(d, c);
    }
  }

  lemma ReportedForward(a: View, s: seq<nat>, b: View, t: seq<nat>, c: View)
    requires Reported(a, s, b, t) && Forward(b.w, c.w) && c.tree == b.tree && c.p == b.p
    ensures Reported(a, s, c, t)
  {
    ReportedNothing(b, c, t);
    ReportedTransitive(a, s, b, t, c, t);
  }

  /** The lowest set bit. */
  function Lowest(bits: set<Slot>): (s: Slot)
    requires bits != {}
    ensures s in bits
  {
    LowestFrom(bits, 0)
  }

  function LowestFrom(bits: set<Slot>, k: nat): (s: Slot)
    requires exists x :: x in bits && k <= x
    ensures s in bits
    decreases 32 - k
  {
    if k in bits then k else LowestFrom(bits, k + 1)
  }

  predicate AllEnrolled(d: Directory, s: seq<nat>) { forall c :: c in s ==> c in d.paths }

  /** Every completion marked completely in w is among those seen. */
  ghost predicate AllMarkedDone(d: Directory, w: World, seen: seq<nat>) {
    forall c: nat :: c in d.paths && RequestOf(w, c).reach == 0 ==> c in seen
  }

  lemma EmptyReported(p: Pending, tree: Tree, w: World, d: Directory)
    requires Good(p, tree, w, d, NONE)
    ensures AllEnrolled(d, []) && Distinct<nat>([])
    ensures d.root.None? ==> AllMarkedDone(d, w, [])
  {
  }

  lemma RootDepth(p: Pending, tree: Tree, w: World, d: Directory)
    requires Good(p, tree, w, d, NONE) && d.root.Some?
    ensures Depth(d.root.value) == 0
  {
  }

  /** A list of different members of a set is no longer than the set. */
  lemma {:induction false} DistinctBounded(s: seq<nat>, all: set<nat>)
    requires Distinct(s) && forall c :: c in s ==> c in all
    ensures |s| <= |all|
  {
    if s != [] {
      var last := s[|s| - 1];
      DistinctBounded(s[..|s| - 1], all - {last});
    }
  }

  /** A walk from the root, the first of all or a later one. */
  lemma WalkedAgain(p: Pending, tree: Tree, w: World, d: Directory, v: View, middle: View, after: View, root: Word,
                    before: seq<nat>, seen: seq<nat>)
    requires Good(p, tree, w, d, NONE) && d.root == Some(root)
    requires Distinct(before) && Reported(middle, before, after, seen) && AllEnrolled(d, seen)
    requires BranchDone(d, middle.w, root, 0, seen)
    requires before != [] ==> AllMarkedDone(d, v.w, before)
    requires before == [] ==> middle == v
    ensures AllMarkedDone(d, v.w, seen) && Distinct(seen)
    ensures |before| <= |seen| <= |d.paths|
  {
    hide Grows, StaysActive, Records, Coherent, Safe, Consistent;
    DistinctBounded(seen, d.paths.Keys);
    forall c: nat | c in d.paths && RequestOf(v.w, c).reach == 0 ensures c in seen {
      if before == [] {
        assert Linked(d, c);
        assert Under(d, c, 0, root);
      } else {
        assert c in before;
      }
    }
  }
}
