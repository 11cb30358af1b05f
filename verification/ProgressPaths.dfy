/**
 * The change directory as maps: every branch is named by its word, so the two
 * maps of a branch are the entries of one map per branch and slot.
 */
module ProgressPaths {
  import opened Options
  import opened Powers
  import opened Sequences
  import opened ProgressWorld

  const MAX_SAFE_INTEGER: nat := 0x1f_ffff_ffff_ffff

  /** The five-bit digit of an id at a level, most significant first. */
  function Digit(id: nat, level: nat): Slot
    requires level <= 10
  {
    High(id, 5 * (10 - level)) % 32
  }

  lemma {:induction false} DigitsAbove(a: nat, b: nat, level: nat)
    requires level <= 10 && a <= MAX_SAFE_INTEGER && b <= MAX_SAFE_INTEGER
    requires forall i :: 0 <= i <= 10 ==> Digit(a, i) == Digit(b, i)
    ensures High(a, 5 * (10 - level)) == High(b, 5 * (10 - level))
  {
    var k := 5 * (10 - level);
    if level == 0 {
      Pow2Bound();
      HighBound(a, 55, 1);
      HighBound(b, 55, 1);
    } else {
      DigitsAbove(a, b, level - 1);
    }
    HighDigit(a, k);
    HighDigit(b, k);
    assert Digit(a, level) == Digit(b, level);
    hide High;
  }

  lemma Pow2Bound()
    ensures Pow2(55) > MAX_SAFE_INTEGER
  {
    Pow2WideLiterals();
    Pow2Add(48, 7);
    assert Pow2(7) == 128;
    hide Pow2;
  }

  lemma HighDigit(a: nat, k: nat)
    ensures High(a, k) == 32 * High(a, k + 5) + High(a, k) % 32
  {
    HighHigh(a, k, 5);
    Pow2Literals();
    Split(High(a, k), 5);
  }

  /** Different ids differ in some digit: eleven levels cover every safe integer. */
  lemma DigitsDetermine(a: nat, b: nat)
    requires a <= MAX_SAFE_INTEGER && b <= MAX_SAFE_INTEGER
    requires forall i :: 0 <= i <= 10 ==> Digit(a, i) == Digit(b, i)
    ensures a == b
  {
    DigitsAbove(a, b, 10);
    SplitNone(a);
    SplitNone(b);
  }

  datatype Directory = Directory(
    root: Option<Word>, children: map<Mark, Word>, entries: map<Mark, nat>, paths: map<nat, Path>, serial: nat)

  /** The branch of a word is linked under its own parent and slot, before the next serial number. */
  predicate Branched(d: Directory, m: Mark)
    requires m in d.children
  {
    var child := d.children[m];
    child.Child? && child.parent == m.word && child.slot == m.slot
    && child.serial < d.serial && m.word.serial < d.serial
  }

  /** The mark at level i leads to the branch of the next level. */
  predicate Leads(d: Directory, p: Path, i: nat)
    requires i + 1 < |p|
  {
    p[i] in d.children && d.children[p[i]] == p[i + 1].word
  }

  /** The path of an enrolled id is linked from the root to its entry, along its digits. */
  predicate Linked(d: Directory, c: nat)
    requires c in d.paths
  {
    var p := d.paths[c];
    && c <= MAX_SAFE_INTEGER && IsPath(p) && d.root == Some(p[0].word)
    && (forall i :: 0 <= i < 10 ==> Leads(d, p, i))
    && p[10] in d.entries && d.entries[p[10]] == c
    && (forall i :: 0 <= i <= 10 ==> p[i].slot == Digit(c, i))
  }

  predicate Entered(d: Directory, m: Mark)
    requires m in d.entries
  {
    var c := d.entries[m];
    c in d.paths && |d.paths[c]| == 11 && d.paths[c][10] == m && m.word.serial < d.serial
  }

  /** The directory holds exactly the enrolled paths. */
  predicate WellLinked(d: Directory) {
    && (forall c :: c in d.paths ==> Linked(d, c))
    && (forall m :: m in d.children ==> Branched(d, m))
    && (forall m :: m in d.entries ==> Entered(d, m))
    && (d.root.Some? ==> d.root.value.Root? && d.root.value.serial < d.serial)
    && (d.root.None? ==> d.paths == map[])
  }

  /** Two enrolled completions never share a leaf bit. */
  lemma LeavesDiffer(d: Directory, a: nat, b: nat, i: nat)
    requires WellLinked(d) && a in d.paths && b in d.paths && a != b && i <= 10
    ensures d.paths[b][10] != d.paths[a][10]
    ensures d.paths[b][i] == d.paths[a][10] ==> i == 10
  {
    assert Linked(d, a) && Linked(d, b);
    if d.paths[b][i] == d.paths[a][10] {
      DepthOf(d.paths[b], i);
      DepthOf(d.paths[a], 10);
    }
  }

  function Depth(word: Word): nat { if word.Root? then 0 else 1 + Depth(word.parent) }

  /** The word at level i of a path lies at depth i. */
  lemma {:induction false} DepthOf(p: Path, i: nat)
    requires IsPath(p) && i <= 10
    ensures Depth(p[i].word) == i
  {
    if i > 0 {
      assert Joined(p, i);
      DepthOf(p, i - 1);
    }
  }

  /** The first n marks of the path of c are linked and lead to the branch current. */
  predicate Descended(d: Directory, c: nat, path: Path, current: Word) {
    && |path| <= 11 && d.root.Some? && current.serial < d.serial
    && (if |path| == 0 then d.root == Some(current) else d.root == Some(path[0].word))
    && (forall i :: 0 <= i < |path| ==> path[i].slot == Digit(c, i))
    && (forall i :: 0 <= i < |path| - 1 ==> Leads(d, path, i))
    && (forall i :: 0 < i < |path| ==> Joined(path, i))
    && (0 < |path| <= 10 ==>
          path[|path| - 1] in d.children && d.children[path[|path| - 1]] == current
          && current.Child? && Mark(current.parent, current.slot) == path[|path| - 1])
  }

  function WithRoot(d: Directory): (r: Directory)
    ensures r.root.Some?
  {
    if d.root.Some? then d else d.(root := Some(Root(d.serial)), serial := d.serial + 1)
  }

  /** The child of a branch in a slot, made if there is none. */
  function WithChild(d: Directory, m: Mark): (r: Directory)
    ensures m in r.children
  {
    if m in d.children then d
    else d.(children := d.children[m := Child(m.word, m.slot, d.serial)], serial := d.serial + 1)
  }

  lemma WithRootLinked(d: Directory)
    requires WellLinked(d)
    ensures WellLinked(WithRoot(d)) && WithRoot(d).root.value.serial < WithRoot(d).serial
  {
  }

  lemma WithChildLinked(d: Directory, m: Mark)
    requires WellLinked(d) && m.word.serial < d.serial
    ensures WellLinked(WithChild(d, m))
  {
    var r := WithChild(d, m);
    forall c | c in r.paths ensures Linked(r, c) {
      LinkedKept(d, r, c);
    }
    forall n | n in r.children ensures Branched(r, n) {
      assert n in d.children ==> Branched(d, n);
    }
    forall n | n in r.entries ensures Entered(r, n) {
      assert Entered(d, n);
    }
  }

  /** One level down. */
  lemma Descend(d: Directory, c: nat, path: Path, current: Word, slot: Slot)
    requires WellLinked(d) && Descended(d, c, path, current) && |path| <= 9 && slot == Digit(c, |path|)
    ensures var m := Mark(current, slot);
            var r := WithChild(d, m);
            && WellLinked(r) && Descended(r, c, path + [m], r.children[m])
            && r.paths == d.paths && r.root == d.root
  {
    var m := Mark(current, slot);
    var r := WithChild(d, m);
    WithChildLinked(d, m);
    assert Branched(r, m);
    DescendPath(d, r, c, path, current, m);
  }

  lemma DescendPath(d: Directory, r: Directory, c: nat, path: Path, current: Word, m: Mark)
    requires Descended(d, c, path, current) && |path| <= 9 && m.word == current && m.slot == Digit(c, |path|)
    requires r.root == d.root && d.serial <= r.serial && m in r.children && Branched(r, m)
    requires forall n :: n in d.children ==> n in r.children && r.children[n] == d.children[n]
    ensures Descended(r, c, path + [m], r.children[m])
  {
    hide Digit;
    var p := path + [m];
    forall i | 0 <= i < |p| - 1 ensures Leads(r, p, i) {
      if i < |path| - 1 {
        assert Leads(d, path, i);
      }
    }
    forall i | 0 < i < |p| ensures Joined(p, i) {
      if i < |path| {
        assert Joined(path, i);
      }
    }
  }

  lemma DescendLeaf(d: Directory, c: nat, path: Path, current: Word, m: Mark)
    requires Descended(d, c, path, current) && |path| == 10 && m == Mark(current, Digit(c, 10))
    requires d.root.value.Root?
    ensures Descended(d, c, path + [m], current) && IsPath(path + [m])
  {
    hide Digit;
    var p := path + [m];
    forall i | 0 <= i < 10 ensures Leads(d, p, i) {
      if i < 9 {
        assert Leads(d, path, i);
      }
    }
    forall i | 0 < i < 11 ensures Joined(p, i) {
      if i < 10 {
        assert Joined(path, i);
      }
    }
  }

  function WithEntry(d: Directory, c: nat, path: Path): Directory
    requires |path| == 11
  {
    d.(entries := d.entries[path[10] := c], paths := d.paths[c := path])
  }

  /** The new leaf belongs to no other completion, because some digit differs. */
  lemma WithEntryLinked(d: Directory, c: nat, path: Path, current: Word)
    requires WellLinked(d) && Descended(d, c, path, current) && |path| == 11 && IsPath(path)
    requires c !in d.paths && c <= MAX_SAFE_INTEGER && path[10].word == current
    ensures WellLinked(WithEntry(d, c, path))
    ensures path[10] !in d.entries
  {
    hide Digit;
    if path[10] in d.entries {
      var b := d.entries[path[10]];
      assert Entered(d, path[10]);
      assert Linked(d, b);
      PathDetermined(d.paths[b], path, 10);
      DigitsDetermine(b, c);
    }
    var r := WithEntry(d, c, path);
    forall b | b in r.paths ensures Linked(r, b) {
      if b != c {
        LinkedKept(d, r, b);
      } else {
        forall i | 0 <= i < 10 ensures Leads(r, path, i) {
          assert Leads(d, path, i);
        }
      }
    }
    forall n | n in r.children ensures Branched(r, n) {
      assert Branched(d, n);
    }
    forall n | n in r.entries ensures Entered(r, n) {
      assert n != path[10] ==> Entered(d, n);
    }
  }

  /** No slot of the branch is in use. */
  predicate Vacant(d: Directory, word: Word) {
    forall slot: Slot :: Mark(word, slot) !in d.entries && Mark(word, slot) !in d.children
  }

  function WithoutEntry(d: Directory, c: nat): Directory
    requires c in d.paths && |d.paths[c]| == 11
  {
    d.(entries := d.entries - {d.paths[c][10]}, paths := d.paths - {c})
  }

  lemma WithoutEntryLinked(d: Directory, c: nat)
    requires WellLinked(d) && c in d.paths && |d.paths[c]| == 11
    ensures WellLinked(WithoutEntry(d, c))
  {
    var r := WithoutEntry(d, c);
    assert Linked(d, c);
    forall b | b in r.paths ensures Linked(r, b) {
      LinkedKept(d, r, b);
    }
    forall n | n in r.children ensures Branched(r, n) {
      assert Branched(d, n);
    }
    forall n | n in r.entries ensures Entered(r, n) {
      assert Entered(d, n);
    }
  }

  function WithoutChild(d: Directory, m: Mark): Directory { d.(children := d.children - {m}) }

  lemma PathAvoids(d: Directory, b: nat, m: Mark, word: Word)
    requires WellLinked(d) && b in d.paths && m in d.children && d.children[m] == word && Vacant(d, word)
    ensures forall i :: 0 <= i < 10 && i < |d.paths[b]| ==> d.paths[b][i] != m
  {
    assert Linked(d, b);
    var p := d.paths[b];
    forall i | 0 <= i < 10 ensures p[i] != m {
      assert Leads(d, p, i);
      assert i < 9 ==> Leads(d, p, i + 1);
      assert Mark(p[i + 1].word, p[i + 1].slot) == p[i + 1];
    }
  }

  /** A path stays linked as long as its own marks do. */
  lemma LinkedKept(d: Directory, r: Directory, b: nat)
    requires b in d.paths && Linked(d, b)
    requires b in r.paths && r.paths[b] == d.paths[b] && r.root == d.root
    requires d.paths[b][10] in r.entries && r.entries[d.paths[b][10]] == b
    requires forall i :: 0 <= i < 10 && d.paths[b][i] in d.children ==>
               d.paths[b][i] in r.children && r.children[d.paths[b][i]] == d.children[d.paths[b][i]]
    ensures Linked(r, b)
  {
    hide Digit;
    var p := d.paths[b];
    forall i | 0 <= i < 10 ensures Leads(r, p, i) {
      assert Leads(d, p, i);
    }
  }

  /** Unlinking a vacant branch cuts no path. */
  lemma WithoutChildLinked(d: Directory, m: Mark, word: Word)
    requires WellLinked(d) && m in d.children && d.children[m] == word && Vacant(d, word)
    ensures WellLinked(WithoutChild(d, m))
  {
    var r := WithoutChild(d, m);
    forall b | b in r.paths ensures Linked(r, b) {
      PathAvoids(d, b, m, word);
      LinkedKept(d, r, b);
    }
    forall n | n in r.children ensures Branched(r, n) {
      assert Branched(d, n);
    }
    forall n | n in r.entries ensures Entered(r, n) {
      assert Entered(d, n);
    }
  }

  /** The branch below a mark is on the way to something enrolled. */
  predicate OnPath(d: Directory, m: Mark) {
    exists c :: c in d.paths && |d.paths[c]| == 11 && m in d.paths[c][..10]
  }

  /** Besides what is enrolled, only the first marks of one path lead anywhere. */
  ghost predicate TrimBut(d: Directory, path: Path, n: nat)
    requires n <= |path|
  {
    forall m :: m in d.children ==> OnPath(d, m) || m in path[..n]
  }

  /** No branch is linked that nothing enrolled uses. */
  ghost predicate Trim(d: Directory) { forall m :: m in d.children ==> OnPath(d, m) }

  lemma StillOnPath(d: Directory, r: Directory, m: Mark)
    requires OnPath(d, m) && r.paths == d.paths
    ensures OnPath(r, m)
  {
    var b :| b in d.paths && |d.paths[b]| == 11 && m in d.paths[b][..10];
    assert m in r.paths[b][..10];
  }

  lemma TrimStarts(d: Directory)
    requires Trim(d)
    ensures TrimBut(WithRoot(d), [], 0)
  {
    forall m | m in d.children ensures OnPath(WithRoot(d), m) {
      assert OnPath(d, m);
      StillOnPath(d, WithRoot(d), m);
    }
  }

  lemma TrimDescends(d: Directory, path: Path, m: Mark)
    requires TrimBut(d, path, |path|)
    ensures TrimBut(WithChild(d, m), path + [m], |path| + 1)
  {
    var r := WithChild(d, m);
    assert path[..|path|] == path && (path + [m])[..|path| + 1] == path + [m];
    forall n | n in r.children ensures OnPath(r, n) || n in path + [m] {
      if n in d.children && OnPath(d, n) {
        StillOnPath(d, r, n);
      }
    }
  }

  lemma WithEntryTrim(d: Directory, c: nat, path: Path)
    requires |path| == 11 && TrimBut(d, path, 10) && c !in d.paths
    ensures Trim(WithEntry(d, c, path))
  {
    var r := WithEntry(d, c, path);
    forall m | m in r.children ensures OnPath(r, m) {
      if OnPath(d, m) {
        var b :| b in d.paths && |d.paths[b]| == 11 && m in d.paths[b][..10];
        assert r.paths[b] == d.paths[b];
      } else {
        assert r.paths[c] == path && m in path[..10];
      }
    }
  }

  lemma WithoutEntryTrim(d: Directory, c: nat)
    requires Trim(d) && c in d.paths && |d.paths[c]| == 11
    ensures TrimBut(WithoutEntry(d, c), d.paths[c], 10)
  {
    var r := WithoutEntry(d, c);
    forall m | m in r.children ensures OnPath(r, m) || m in d.paths[c][..10] {
      assert OnPath(d, m);
      var b :| b in d.paths && |d.paths[b]| == 11 && m in d.paths[b][..10];
      assert b != c ==> r.paths[b] == d.paths[b];
    }
  }

  lemma TrimUnlinks(d: Directory, path: Path, index: nat)
    requires 0 < index <= |path| && TrimBut(d, path, index)
    ensures TrimBut(WithoutChild(d, path[index - 1]), path, index - 1)
  {
    var r := WithoutChild(d, path[index - 1]);
    forall m | m in r.children ensures OnPath(r, m) || m in path[..index - 1] {
      if OnPath(d, m) {
        assert OnPath(r, m);
      } else {
        assert path[..index] == path[..index - 1] + [path[index - 1]];
      }
    }
  }

  /** Whatever is in use below a branch of a path shares the way to it. */
  lemma UsedBelow(d: Directory, path: Path, index: nat) returns (b: nat)
    requires WellLinked(d) && IsPath(path) && index <= 10 && TrimBut(d, path, index) && !Vacant(d, path[index].word)
    ensures b in d.paths && IsPath(d.paths[b]) && d.paths[b][index].word == path[index].word
  {
    var slot: Slot :| Mark(path[index].word, slot) in d.entries || Mark(path[index].word, slot) in d.children;
    var m := Mark(path[index].word, slot);
    DepthOf(path, index);
    if m in d.entries {
      b := d.entries[m];
      assert Entered(d, m) && Linked(d, b);
      DepthOf(d.paths[b], 10);
    } else {
      if m in path[..index] {
        var i :| 0 <= i < index && path[i] == m;
        DepthOf(path, i);
      }
      assert OnPath(d, m);
      b :| b in d.paths && |d.paths[b]| == 11 && m in d.paths[b][..10];
      assert Linked(d, b);
      var i :| 0 <= i < 10 && d.paths[b][i] == m;
      DepthOf(d.paths[b], i);
    }
    hide WellLinked, TrimBut, Vacant;
  }

  lemma TrimStops(d: Directory, path: Path, index: nat)
    requires WellLinked(d) && IsPath(path) && index <= 10 && TrimBut(d, path, index) && !Vacant(d, path[index].word)
    ensures Trim(d)
  {
    hide WellLinked, Vacant, IsPath;
    var b := UsedBelow(d, path, index);
    SharedWay(d.paths[b], path, index);
    forall m | m in d.children ensures OnPath(d, m) {
      if m in path[..index] {
        var i :| 0 <= i < index && path[i] == m;
        PathSize(d.paths[b]);
        assert d.paths[b][..10][i] == m;
      }
    }
  }

  lemma PathSize(p: Path)
    requires IsPath(p)
    ensures |p| == 11
  {
  }

  /** A branch determines the marks above it. */
  lemma SharedWay(p: Path, q: Path, index: nat)
    requires IsPath(p) && IsPath(q) && index <= 10 && p[index].word == q[index].word
    ensures |p| == |q| == 11 && forall i :: 0 <= i < index ==> p[i] == q[i]
  {
    if index > 0 {
      assert Joined(p, index) && Joined(q, index);
      PathDetermined(p, q, index - 1);
    }
  }

  lemma TrimEmpty(d: Directory, path: Path)
    requires TrimBut(d, path, 0)
    ensures Trim(d)
  {
  }

  /** The branches that are linked are exactly those on the way to something enrolled. */
  lemma BranchesUsed(d: Directory, m: Mark)
    requires WellLinked(d) && Trim(d)
    ensures m in d.children <==> OnPath(d, m)
  {
    if OnPath(d, m) {
      var b :| b in d.paths && |d.paths[b]| == 11 && m in d.paths[b][..10];
      var i :| 0 <= i < 10 && d.paths[b][i] == m;
      assert Linked(d, b) && Leads(d, d.paths[b], i);
    }
  }

  /** Nothing new is linked. */
  predicate Fewer(d: Directory, r: Directory) {
    forall m :: m in r.children ==> m in d.children && r.children[m] == d.children[m]
  }

  lemma FewerLess(d: Directory, r: Directory, m: Mark)
    requires Fewer(d, r)
    ensures Fewer(d, WithoutChild(r, m))
  {
  }

  lemma FewerStarts(d: Directory, c: nat)
    ensures Fewer(d, d) && (c in d.paths && |d.paths[c]| == 11 ==> Fewer(d, WithoutEntry(d, c)))
    ensures forall serial: nat :: Fewer(d, Directory(None, map[], map[], map[], serial))
  {
  }

  /** Giving out more serial numbers changes nothing else. */
  lemma SerialsLinked(d: Directory, serial: nat)
    requires WellLinked(d) && d.serial <= serial
    ensures WellLinked(d.(serial := serial)) && (Trim(d) ==> Trim(d.(serial := serial)))
  {
    var r := d.(serial := serial);
    forall b | b in r.paths ensures Linked(r, b) {
      assert Linked(d, b);
      LinkedKept(d, r, b);
    }
    forall n | n in r.children ensures Branched(r, n) && (Trim(d) ==> OnPath(r, n)) {
      assert Branched(d, n) && (Trim(d) ==> OnPath(d, n));
    }
    forall n | n in r.entries ensures Entered(r, n) {
      assert Entered(d, n);
    }
  }

  /** The directory with branches made in vain, in the order they were made. */
  ghost predicate Made(start: Directory, d: Directory, created: seq<Mark>) {
    && d.paths == start.paths && d.entries == start.entries && start.serial <= d.serial
    && (start.root.Some? ==> d.root == start.root)
    && Distinct(created) && (forall m :: m in created ==> m in d.children && m !in start.children)
    && (forall m :: m in start.children ==> m in d.children && d.children[m] == start.children[m])
    && (forall m :: m in d.children ==> m in start.children || m in created)
  }

  lemma MadeStarts(start: Directory)
    ensures Made(start, start, []) && Made(start, WithRoot(start), [])
  {
  }

  lemma MadeMore(start: Directory, d: Directory, created: seq<Mark>, m: Mark)
    requires Made(start, d, created)
    ensures Made(start, WithChild(d, m), if m in d.children then created else created + [m])
  {
  }

  lemma MadeLess(start: Directory, d: Directory, created: seq<Mark>)
    requires Made(start, d, created) && created != []
    ensures Made(start, WithoutChild(d, created[|created| - 1]), created[..|created| - 1])
    ensures WithoutChild(d, created[|created| - 1]).serial == d.serial
  {
    var last := |created| - 1;
    assert created == created[..last] + [created[last]];
  }

  lemma MadeNothing(start: Directory, d: Directory, created: seq<Mark>)
    requires WellLinked(start) && Made(start, d, created) && created == []
    ensures d.(root := start.root) == start.(serial := d.serial) && start.serial <= d.serial
  {
    hide WellLinked;
    assert d.children == start.children;
  }
}
