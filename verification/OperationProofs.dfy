/** What an accepted post-state means: it is the expected one up to order and
    generations, it stays within the paths the operation started from, and undoing
    operations accept each other's transitions
    (crates/stateful-core/src/resource.rs). */
module OperationProofs {
  import opened Basics
  import opened Resources
  import opened Operations

  // -------------------------------------------------------------- exactness

  /** An observation without its generation. */
  type Seen = (ResourceKey, ObservedState)

  function Strip(os: seq<Observation>): (r: seq<Seen>)
    ensures |r| == |os|
    ensures forall i :: 0 <= i < |os| ==> r[i] == (os[i].key, os[i].observed)
  {
    seq(|os|, i requires 0 <= i < |os| => (os[i].key, os[i].observed))
  }

  ghost predicate Permutes(left: seq<Observation>, right: seq<Observation>) {
    multiset(Strip(left)) == multiset(Strip(right))
  }

  /** A duplicate-free list whose members all occur in a list of the same length is
      a permutation of it. */
  lemma {:induction false} CoverIsPermutation(a: seq<Seen>, b: seq<Seen>)
    requires |a| == |b| && forall x :: x in a ==> x in b
    requires forall i, j :: 0 <= i < j < |a| ==> a[i] != a[j]
    ensures multiset(a) == multiset(b)
  {
    if a == [] {
      assert b == [];
    } else {
      assert a[0] in a;
      var k :| 0 <= k < |b| && b[k] == a[0];
      var rest := b[..k] + b[k + 1..];
      assert b == b[..k] + [b[k]] + b[k + 1..];
      forall x | x in a[1..] ensures x in rest {
        var i :| 0 <= i < |a[1..]| && a[1..][i] == x;
        assert a[i + 1] == x && x in a;
        var m :| 0 <= m < |b| && b[m] == x;
        assert m != k;
        if m < k { assert rest[m] == x; } else { assert rest[m - 1] == x; }
      }
      CoverIsPermutation(a[1..], rest);
      assert a == [a[0]] + a[1..];
    }
  }

  /** Comparing lengths and looking up each expected observation decides exactly
      whether the lists are permutations, as long as no key is expected twice. */
  lemma SetCheckExact(expected: seq<Observation>, actual: seq<Observation>)
    requires DistinctKeys(expected)
    ensures EqualAsSet(expected, actual) <==> Permutes(expected, actual)
  {
    var a, b := Strip(expected), Strip(actual);
    if EqualAsSet(expected, actual) {
      forall x | x in a ensures x in b {
        var i :| 0 <= i < |a| && a[i] == x;
        assert expected[i] in expected;
        var c :| c in actual && SameState(c, expected[i]);
        var j :| 0 <= j < |actual| && actual[j] == c;
        assert b[j] == x;
      }
      CoverIsPermutation(a, b);
    }
    if Permutes(expected, actual) {
      assert |multiset(a)| == |a| && |multiset(b)| == |b|;
      forall o | o in expected ensures exists c :: c in actual && SameState(c, o) {
        var i :| 0 <= i < |expected| && expected[i] == o;
        assert a[i] in multiset(b);
        var j :| 0 <= j < |b| && b[j] == a[i];
        assert actual[j] in actual && SameState(actual[j], o);
      }
    }
  }

  /** Without distinct keys the check would accept lists that are no permutations. */
  lemma SetCheckNeedsDistinctKeys(o: Observation, p: Observation)
    requires o.key != p.key
    ensures EqualAsSet([o, o], [o, p]) && !Permutes([o, o], [o, p])
  {
    var a, b := Strip([o, o]), Strip([o, p]);
    assert a[0] == a[1] == (o.key, o.observed) && b[1] == (p.key, p.observed);
    assert b[1] in multiset(b) && b[1] !in a;
    assert o in [o, p];
  }

  lemma ShapeDistinct(os: seq<Observation>, shape: seq<Slot>)
    requires RequireShape(os, shape).Ok?
    ensures DistinctKeys(os) && |os| == |shape| && os != []
    ensures forall o :: o in os ==> exists s :: s in shape && Fits(o, s)
    ensures forall s :: s in shape ==> |Matches(os, s)| == 1
  {
  }

  /** Every accepted transition has a shape that rules out repeated keys. */
  lemma ExpectedShape(op: Operation, start: seq<Observation>, expected: seq<Observation>)
    requires ValidateExpectedTransition(op, start, expected).Ok?
    ensures exists shape :: RequireShape(expected, shape).Ok?
  {
    hide RequireShape, TargetIn, AbsentEntryIn, TreeIn, CommitTransition, OperationPath, UniquePaths, CommitSlots;
    hide EntryNamed, PresentEntryOf, ObservationAt;
  }

  lemma ExpectedDistinct(op: Operation, start: seq<Observation>, expected: seq<Observation>)
    requires ValidateExpectedTransition(op, start, expected).Ok?
    ensures DistinctKeys(expected)
  {
    hide ValidateExpectedTransition, RequireShape, DistinctKeys;
    ExpectedShape(op, start, expected);
    var shape :| RequireShape(expected, shape).Ok?;
    ShapeDistinct(expected, shape);
  }

  /** A completed write is accepted exactly when its start and its expected post-state
      fit the operation and the post-state found is a permutation of the expected one. */
  lemma TransitionExact(op: Operation, start: seq<Observation>, expected: seq<Observation>, actual: seq<Observation>)
    ensures ValidateOperationTransition(op, start, expected, actual).Ok? <==>
              && ValidateOperationStart(op, start).Ok?
              && ValidateExpectedTransition(op, start, expected).Ok?
              && Permutes(expected, actual)
  {
    hide ValidateOperationStart, ValidateExpectedTransition, EqualAsSet, Permutes;
    if ValidateExpectedTransition(op, start, expected).Ok? {
      ExpectedDistinct(op, start, expected);
      SetCheckExact(expected, actual);
    }
  }

  // ------------------------------------------------------------------ frame

  ghost predicate Within(post: seq<Observation>, start: seq<Observation>) {
    forall o :: o in post ==> exists s :: s in start && s.key.path == o.key.path
  }

  lemma {:induction false} MatchesSound(os: seq<Observation>, slot: Slot)
    ensures forall o :: o in Matches(os, slot) <==> o in os && Fits(o, slot)
  {
    if os != [] {
      MatchesSound(os[1..], slot);
      assert os == [os[0]] + os[1..];
    }
  }

  lemma FoundFits(os: seq<Observation>, slot: Slot)
    requires ObservationAt(os, slot).Ok?
    ensures ObservationAt(os, slot).value in os && Fits(ObservationAt(os, slot).value, slot)
    ensures forall o :: o in os && Fits(o, slot) ==> o == ObservationAt(os, slot).value
  {
    MatchesSound(os, slot);
    var found := Matches(os, slot);
    forall o | o in os && Fits(o, slot) ensures o == found[0] {
      assert o in found;
    }
  }

  lemma ShapeCovers(os: seq<Observation>, shape: seq<Slot>, slot: Slot)
    requires RequireShape(os, shape).Ok? && slot in shape
    ensures exists o :: o in os && o.key.path == slot.1
  {
    MatchesSound(os, slot);
    assert Matches(os, slot)[0] in Matches(os, slot);
  }

  lemma ShapeWithin(post: seq<Observation>, postShape: seq<Slot>, start: seq<Observation>, startShape: seq<Slot>)
    requires RequireShape(post, postShape).Ok? && RequireShape(start, startShape).Ok?
    requires forall s :: s in postShape ==> exists t :: t in startShape && t.1 == s.1
    ensures Within(post, start)
  {
    hide RequireShape, Fits;
    ShapeDistinct(post, postShape);
    forall o | o in post ensures exists c :: c in start && c.key.path == o.key.path {
      var s :| s in postShape && Fits(o, s);
      assert o.key.path == s.1 by { FitsPath(o, s); }
      var t :| t in startShape && t.1 == s.1;
      ShapeCovers(start, startShape, t);
    }
  }

  lemma FitsPath(o: Observation, s: Slot)
    requires Fits(o, s)
    ensures o.key.path == s.1
  {
  }

  predicate PresentAt(os: seq<Observation>, path: string) {
    ObservationAt(os, (Entry, path)).Ok? && ObservationAt(os, (Entry, path)).value.observed.PresentEntry?
  }

  predicate Needed(os: seq<Observation>, paths: seq<string>, s: Slot) {
    s.1 in paths && (s.0.Entry? || (s.0.Object? && PresentAt(os, s.1)))
  }

  /** An entry for every tracked path, and an object for those that exist. */
  lemma {:induction false} SlotsExact(os: seq<Observation>, paths: seq<string>)
    requires CommitSlots(os, paths).Ok?
    ensures forall s :: s in CommitSlots(os, paths).value <==> Needed(os, paths, s)
    ensures forall p :: p in paths ==> p != GIT && ObservationAt(os, (Entry, p)).Ok?
  {
    hide ObservationAt;
    if paths != [] {
      var n := |paths| - 1;
      var p := paths[n];
      SlotsExact(os, paths[..n]);
      assert paths == paths[..n] + [p];
      var front, all := CommitSlots(os, paths[..n]).value, CommitSlots(os, paths).value;
      assert all == front + if PresentAt(os, p) then [(Entry, p), (Object, p)] else [(Entry, p)];
      hide PresentAt, CommitSlots;
      forall s ensures s in all <==> Needed(os, paths, s) {
        assert Needed(os, paths, s) <==> Needed(os, paths[..n], s) || s == (Entry, p) || (s == (Object, p) && PresentAt(os, p));
      }
    }
  }

  lemma CommitShape(trackedPaths: seq<string>, os: seq<Observation>)
    requires CommitStart(trackedPaths, os).Ok?
    ensures UniquePaths(trackedPaths).Ok? && CommitSlots(os, UniquePaths(trackedPaths).value).Ok?
    ensures RequireShape(os, CommitSlots(os, UniquePaths(trackedPaths).value).value + [(DirectoryTree, GIT)]).Ok?
    ensures TreeIn(os, GIT).Ok?
  {
    hide UniquePaths, CommitSlots, RequireShape, TreeIn, TrackedFileValid;
  }

  lemma CommitWithin(trackedPaths: seq<string>, start: seq<Observation>, expected: seq<Observation>)
    requires CommitStart(trackedPaths, start).Ok? && CommitStart(trackedPaths, expected).Ok?
    ensures Within(expected, start)
  {
    hide CommitStart, RequireShape, CommitSlots, UniquePaths, TreeIn, Within, ObservationAt, PresentAt;
    CommitShape(trackedPaths, start);
    CommitShape(trackedPaths, expected);
    var paths := UniquePaths(trackedPaths).value;
    SlotsExact(start, paths);
    SlotsExact(expected, paths);
    var startShape := CommitSlots(start, paths).value + [(DirectoryTree, GIT)];
    var postShape := CommitSlots(expected, paths).value + [(DirectoryTree, GIT)];
    forall s | s in postShape ensures exists t :: t in startShape && t.1 == s.1 {
      if s in CommitSlots(expected, paths).value {
        assert Needed(start, paths, (Entry, s.1));
        assert (Entry, s.1) in startShape;
      } else {
        assert s in startShape;
      }
    }
    ShapeWithin(expected, postShape, start, startShape);
  }

  function PathOf(path: string): string { if OperationPath(path).Ok? then OperationPath(path).value else "" }

  /** The slots an operation on fixed paths starts from. */
  function StartShape(op: Operation): seq<Slot>
    requires !op.StructuredCommit?
  {
    match op
    case Create(path) => [(Entry, PathOf(path))]
    case Mkdir(path) => [(Entry, PathOf(path))]
    case Update(path) => [(Object, PathOf(path)), (Entry, PathOf(path))]
    case Delete(path, _) => [(Object, PathOf(path)), (Entry, PathOf(path))]
    case Rename(o, n, _) => [(Object, PathOf(o)), (Entry, PathOf(o)), (Entry, PathOf(n))]
    case Move(o, n, _) => [(Object, PathOf(o)), (Entry, PathOf(o)), (Entry, PathOf(n))]
    case Hardlink(o, n) => [(Object, PathOf(o)), (Entry, PathOf(o)), (Entry, PathOf(n))]
    case Rmdir(path) => [(DirectoryTree, PathOf(path)), (Entry, PathOf(path))]
    case WriteDirectory(path) => [(DirectoryTree, PathOf(path))]
  }

  /** The slots it ends in. */
  function PostShape(op: Operation): seq<Slot>
    requires !op.StructuredCommit?
  {
    match op
    case Create(path) => [(Object, PathOf(path)), (Entry, PathOf(path))]
    case Mkdir(path) => [(DirectoryTree, PathOf(path)), (Entry, PathOf(path))]
    case Update(path) => [(Object, PathOf(path)), (Entry, PathOf(path))]
    case Delete(path, _) => [(Entry, PathOf(path))]
    case Rename(o, n, _) => [(Object, PathOf(n)), (Entry, PathOf(o)), (Entry, PathOf(n))]
    case Move(o, n, _) => [(Object, PathOf(n)), (Entry, PathOf(o)), (Entry, PathOf(n))]
    case Hardlink(o, n) => [(Object, PathOf(o)), (Entry, PathOf(o)), (Entry, PathOf(n))]
    case Rmdir(path) => [(Entry, PathOf(path))]
    case WriteDirectory(path) => [(DirectoryTree, PathOf(path))]
  }

  lemma ShapesMet(op: Operation, start: seq<Observation>, expected: seq<Observation>)
    requires !op.StructuredCommit?
    ensures ValidateOperationStart(op, start).Ok? ==> RequireShape(start, StartShape(op)).Ok?
    ensures ValidateExpectedTransition(op, start, expected).Ok? ==> RequireShape(expected, PostShape(op)).Ok?
  {
    hide RequireShape, TargetIn, AbsentEntryIn, TreeIn, OperationPath, EntryNamed, PresentEntryOf, ObservationAt;
  }

  ghost predicate SamePaths(post: seq<Slot>, start: seq<Slot>) {
    forall s :: s in post ==> exists t :: t in start && t.1 == s.1
  }

  lemma ShapesOnSamePaths(op: Operation)
    requires !op.StructuredCommit?
    ensures SamePaths(PostShape(op), StartShape(op))
  {
    hide PathOf;
    var start, post := StartShape(op), PostShape(op);
    forall s | s in post ensures exists t :: t in start && t.1 == s.1 {
      if op.Rename? || op.Move? || op.Hardlink? {
        assert start[1] in start && start[2] in start;
      } else {
        assert start[0] in start;
      }
    }
  }

  lemma PermutedWithin(expected: seq<Observation>, actual: seq<Observation>, start: seq<Observation>)
    requires Permutes(expected, actual) && Within(expected, start)
    ensures Within(actual, start)
  {
    var a, b := Strip(expected), Strip(actual);
    forall o | o in actual ensures exists s :: s in start && s.key.path == o.key.path {
      var j :| 0 <= j < |actual| && actual[j] == o;
      assert b[j] in multiset(a);
      var i :| 0 <= i < |a| && a[i] == b[j];
      assert expected[i] in expected;
    }
  }

  /** An accepted write changes nothing outside the paths it started from. */
  lemma TransitionFramed(op: Operation, start: seq<Observation>, expected: seq<Observation>, actual: seq<Observation>)
    requires ValidateOperationTransition(op, start, expected, actual).Ok?
    ensures Within(actual, start)
  {
    hide RequireShape, Permutes, Within, CommitTransition, CommitStart;
    TransitionExact(op, start, expected, actual);
    if op.StructuredCommit? {
      CommitWithin(op.trackedPaths, start, expected);
    } else {
      hide ValidateOperationStart, ValidateExpectedTransition, StartShape, PostShape;
      ShapesMet(op, start, expected);
      ShapesOnSamePaths(op);
      ShapeWithin(expected, PostShape(op), start, StartShape(op));
    }
    PermutedWithin(expected, actual, start);
  }

  // ---------------------------------------------------- structured commits

  /** Everything but the tree `git` is found in the same state on the other side. */
  ghost predicate SameBut(left: seq<Observation>, right: seq<Observation>, git: ResourceKey) {
    forall o :: o in left && o.key != git ==> exists c :: c in right && SameState(c, o)
  }

  lemma SlotHolds(os: seq<Observation>, shape: seq<Slot>, slot: Slot)
    requires RequireShape(os, shape).Ok? && slot in shape
    ensures ObservationAt(os, slot).Ok?
  {
  }

  /** What fits a slot on the right is what the left side carried over into it. */
  lemma CarriedOver(start: seq<Observation>, expected: seq<Observation>, slot: Slot, git: ResourceKey, o: Observation)
    requires ObservationAt(start, slot).Ok? && ObservationAt(expected, slot).Ok?
    requires SameBut(start, expected, git) && git.id.kind == DirectoryTree && slot.0 != DirectoryTree
    requires o in expected && Fits(o, slot)
    ensures ObservationAt(start, slot).value in start && SameState(ObservationAt(start, slot).value, o)
  {
    hide ObservationAt;
    FoundFits(start, slot);
    FoundFits(expected, slot);
    var s := ObservationAt(start, slot).value;
    assert s.key != git;
    var c :| c in expected && SameState(c, s);
    assert Fits(c, slot);
  }

  lemma PresenceCarried(start: seq<Observation>, expected: seq<Observation>, p: string, git: ResourceKey)
    requires ObservationAt(start, (Entry, p)).Ok? && SameBut(start, expected, git) && git.id.kind == DirectoryTree
    requires PresentAt(expected, p)
    ensures PresentAt(start, p)
  {
    FoundFits(expected, (Entry, p));
    hide ObservationAt;
    CarriedOver(start, expected, (Entry, p), git, ObservationAt(expected, (Entry, p)).value);
  }

  lemma CommitUnchanged(start: seq<Observation>, expected: seq<Observation>, paths: seq<string>, git: ResourceKey, o: Observation)
    requires CommitSlots(start, paths).Ok? && CommitSlots(expected, paths).Ok?
    requires RequireShape(start, CommitSlots(start, paths).value + [(DirectoryTree, GIT)]).Ok?
    requires RequireShape(expected, CommitSlots(expected, paths).value + [(DirectoryTree, GIT)]).Ok?
    requires SameBut(start, expected, git) && git.id.kind == DirectoryTree && TreeIn(expected, GIT).Ok?
    requires TreeIn(expected, GIT).value.key == git && o in expected && o.key != git
    ensures exists s :: s in start && SameState(s, o)
  {
    hide RequireShape, CommitSlots, SameBut, PresentAt;
    var startShape := CommitSlots(start, paths).value + [(DirectoryTree, GIT)];
    var postShape := CommitSlots(expected, paths).value + [(DirectoryTree, GIT)];
    SlotsExact(start, paths);
    SlotsExact(expected, paths);
    ShapeDistinct(expected, postShape);
    var slot :| slot in postShape && Fits(o, slot);
    if slot == (DirectoryTree, GIT) {
      FoundFits(expected, slot);
      assert false;
    } else {
      assert Needed(expected, paths, slot);
      if slot.0.Object? { PresenceCarried(start, expected, slot.1, git); }
      assert Needed(start, paths, slot);
      SlotHolds(start, startShape, slot);
      SlotHolds(expected, postShape, slot);
      CarriedOver(start, expected, slot, git, o);
    }
  }

  lemma CommitTransitionMeans(start: seq<Observation>, expected: seq<Observation>)
    requires CommitTransition(start, expected).Ok?
    ensures TreeIn(start, GIT).Ok? && TreeIn(expected, GIT).Ok?
    ensures TreeIn(start, GIT).value.key == TreeIn(expected, GIT).value.key
    ensures SameBut(start, expected, TreeIn(expected, GIT).value.key)
    ensures TreeIn(start, GIT).value.observed.snapshot != TreeIn(expected, GIT).value.observed.snapshot
    ensures TreeIn(start, GIT).value.observed.treeDevice == TreeIn(expected, GIT).value.observed.treeDevice
    ensures TreeIn(start, GIT).value.observed.treeInode == TreeIn(expected, GIT).value.observed.treeInode
  {
    hide TreeIn;
  }

  lemma TreeFound(os: seq<Observation>, path: string)
    requires TreeIn(os, path).Ok?
    ensures TreeIn(os, path).value in os && TreeIn(os, path).value.key.id.kind == DirectoryTree
  {
    hide Matches;
    FoundFits(os, (DirectoryTree, path));
  }

  /** A structured commit changes the snapshot of the `.git` tree, keeps the identity
      of that tree, and leaves every tracked file exactly as it was. */
  lemma CommitTouchesOnlyGit(trackedPaths: seq<string>, start: seq<Observation>, expected: seq<Observation>,
                             actual: seq<Observation>)
    requires ValidateOperationTransition(StructuredCommit(trackedPaths), start, expected, actual).Ok?
    ensures TreeIn(start, GIT).Ok? && TreeIn(expected, GIT).Ok?
    ensures var before, after := TreeIn(start, GIT).value, TreeIn(expected, GIT).value;
            && before.key == after.key
            && before.observed.snapshot != after.observed.snapshot
            && before.observed.treeDevice == after.observed.treeDevice && before.observed.treeInode == after.observed.treeInode
            && SameBut(start, actual, after.key) && SameBut(actual, start, after.key)
  {
    hide CommitStart, CommitTransition, TreeIn, RequireShape, UniquePaths, CommitSlots, Permutes, SameBut, EqualAsSet;
    TransitionExact(StructuredCommit(trackedPaths), start, expected, actual);
    CommitShape(trackedPaths, start);
    CommitShape(trackedPaths, expected);
    CommitTransitionMeans(start, expected);
    var git := TreeIn(expected, GIT).value.key;
    TreeFound(expected, GIT);
    var paths := UniquePaths(trackedPaths).value;
    assert SameBut(expected, start, git) by {
      forall o | o in expected && o.key != git ensures exists s :: s in start && SameState(s, o) {
        CommitUnchanged(start, expected, paths, git, o);
      }
      SameButIntro(expected, start, git);
    }
    PermutedSameBut(expected, actual, start, git);
  }

  lemma SameButIntro(left: seq<Observation>, right: seq<Observation>, git: ResourceKey)
    requires forall o :: o in left && o.key != git ==> exists c :: c in right && SameState(c, o)
    ensures SameBut(left, right, git)
  {
  }

  lemma PermutedIn(left: seq<Observation>, right: seq<Observation>, o: Observation)
    requires Permutes(left, right) && o in left
    ensures exists c :: c in right && SameState(c, o)
  {
    var a, b := Strip(left), Strip(right);
    var i :| 0 <= i < |left| && left[i] == o;
    assert a[i] in multiset(b);
    var j :| 0 <= j < |b| && b[j] == a[i];
    assert right[j] in right;
  }

  lemma PermutedSameBut(expected: seq<Observation>, actual: seq<Observation>, start: seq<Observation>, git: ResourceKey)
    requires Permutes(expected, actual) && SameBut(start, expected, git) && SameBut(expected, start, git)
    ensures SameBut(start, actual, git) && SameBut(actual, start, git)
  {
    hide Permutes, Strip, SameBut;
    assert Permutes(actual, expected) by { PermutesBack(expected, actual); }
    forall o | o in start && o.key != git ensures exists c :: c in actual && SameState(c, o) {
      var c := OtherSide(start, expected, git, o);
      PermutedIn(expected, actual, c);
    }
    forall o | o in actual && o.key != git ensures exists c :: c in start && SameState(c, o) {
      PermutedIn(actual, expected, o);
      var c :| c in expected && SameState(c, o);
      var d := OtherSide(expected, start, git, c);
    }
    SameButIntro(start, actual, git);
    SameButIntro(actual, start, git);
  }

  lemma PermutesBack(left: seq<Observation>, right: seq<Observation>)
    requires Permutes(left, right)
    ensures Permutes(right, left)
  {
  }

  lemma OtherSide(left: seq<Observation>, right: seq<Observation>, git: ResourceKey, o: Observation) returns (c: Observation)
    requires SameBut(left, right, git) && o in left && o.key != git
    ensures c in right && SameState(c, o)
  {
    c :| c in right && SameState(c, o);
  }

  // -------------------------------------------------------- undoing a write

  /** The operation that undoes another, where there is one. Deleting a symbolic link
      and making a hard link have none. */
  function Undo(op: Operation): Option<Operation> {
    match op
    case Create(path) => Some(Delete(path, false))
    case Delete(path, entryOnly) => if entryOnly then None else Some(Create(path))
    case Mkdir(path) => Some(Rmdir(path))
    case Rmdir(path) => Some(Mkdir(path))
    case Rename(o, n, entryOnly) => Some(Rename(n, o, entryOnly))
    case Move(o, n, entryOnly) => Some(Move(n, o, entryOnly))
    case Update(path) => Some(op)
    case WriteDirectory(path) => Some(op)
    case StructuredCommit(paths) => Some(op)
    case Hardlink(_, _) => None
  }

  /** From `start` to `post` is a valid transition of the operation. */
  predicate Leads(op: Operation, start: seq<Observation>, post: seq<Observation>) {
    ValidateOperationTransition(op, start, post, post).Ok?
  }

  lemma LeadsMeans(op: Operation, start: seq<Observation>, post: seq<Observation>)
    ensures Leads(op, start, post) <==> ValidateOperationStart(op, start).Ok? && ValidateExpectedTransition(op, start, post).Ok?
  {
    hide ValidateOperationStart, ValidateExpectedTransition;
    assert EqualAsSet(post, post);
  }

  /** The order of the slots in a shape does not matter. */
  lemma ShapeOrder(os: seq<Observation>, a: seq<Slot>, b: seq<Slot>)
    requires |a| == |b| && forall s :: s in a <==> s in b
    ensures RequireShape(os, a) == RequireShape(os, b)
  {
    hide Matches;
  }

  lemma UndoRelocation(o: string, n: string, kind: ObjectKind, start: seq<Observation>, post: seq<Observation>)
    requires ValidateRelocationStart(o, n, kind, start).Ok? && ValidateRelocation(o, n, kind, start, post).Ok?
    ensures ValidateRelocationStart(n, o, kind, post).Ok? && ValidateRelocation(n, o, kind, post, start).Ok?
  {
    hide OperationPath, RequireShape, TargetIn, AbsentEntryIn;
    var p, q := OperationPath(o).value, OperationPath(n).value;
    ShapeOrder(post, [(Object, q), (Entry, p), (Entry, q)], [(Object, q), (Entry, q), (Entry, p)]);
    ShapeOrder(start, [(Object, p), (Entry, p), (Entry, q)], [(Object, p), (Entry, q), (Entry, p)]);
  }

  lemma UndoCommit(paths: seq<string>, start: seq<Observation>, post: seq<Observation>)
    requires CommitStart(paths, start).Ok? && CommitStart(paths, post).Ok? && CommitTransition(start, post).Ok?
    ensures CommitTransition(post, start).Ok?
  {
    hide CommitStart, RequireShape, UniquePaths, CommitSlots, EqualAsSet;
    LeadsMeans(StructuredCommit(paths), start, post);
    CommitTouchesOnlyGit(paths, start, post, post);
    hide TreeIn;
  }

  lemma UndoSimple(op: Operation, start: seq<Observation>, post: seq<Observation>)
    requires op.Create? || op.Delete? || op.Mkdir? || op.Rmdir? || op.Update? || op.WriteDirectory?
    requires Undo(op).Some? && ValidateOperationStart(op, start).Ok? && ValidateExpectedTransition(op, start, post).Ok?
    ensures ValidateOperationStart(Undo(op).value, post).Ok? && ValidateExpectedTransition(Undo(op).value, post, start).Ok?
  {
    hide OperationPath, Target, AbsentEntryAlone, EmptyDirectory, TreeAlone;
  }

  lemma UndoLeads(op: Operation, start: seq<Observation>, post: seq<Observation>)
    requires Undo(op).Some? && Leads(op, start, post)
    ensures Leads(Undo(op).value, post, start)
  {
    hide Leads, ValidateRelocationStart, ValidateRelocation, CommitStart, CommitTransition, OperationPath;
    hide Target, AbsentEntryAlone, EmptyDirectory, TreeAlone;
    LeadsMeans(op, start, post);
    LeadsMeans(Undo(op).value, post, start);
    match op
    case Rename(o, n, entryOnly) => UndoRelocation(o, n, TargetKind(entryOnly), start, post);
    case Move(o, n, entryOnly) => UndoRelocation(o, n, TargetKind(entryOnly), start, post);
    case StructuredCommit(paths) => UndoCommit(paths, start, post);
    case _ => UndoSimple(op, start, post);
  }

  /** An operation leads from one state to another exactly when the operation that
      undoes it leads back. */
  lemma UndoExact(op: Operation, start: seq<Observation>, post: seq<Observation>)
    requires Undo(op).Some?
    ensures Undo(Undo(op).value) == Some(op)
    ensures Leads(op, start, post) <==> Leads(Undo(op).value, post, start)
  {
    hide Leads;
    if Leads(op, start, post) { UndoLeads(op, start, post); }
    if Leads(Undo(op).value, post, start) { UndoLeads(Undo(op).value, post, start); }
  }
}
