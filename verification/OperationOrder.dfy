/** The checks of a write do not depend on the order in which observations are
    reported, so sorting them beforehand changes nothing; and the loops that collect
    the paths and slots of a structured commit
    (crates/stateful-core/src/resource.rs). */
module OperationOrder {
  import opened Basics
  import opened Resources
  import opened Operations
  import opened OperationProofs

  ghost predicate Shuffled(a: seq<Observation>, b: seq<Observation>) { multiset(a) == multiset(b) }

  lemma ShuffledBasics(a: seq<Observation>, b: seq<Observation>)
    requires Shuffled(a, b)
    ensures |a| == |b| && forall o :: o in a <==> o in b
  {
    assert |multiset(a)| == |a| && |multiset(b)| == |b|;
    forall o ensures o in a <==> o in b {
      assert o in a <==> o in multiset(a);
      assert o in b <==> o in multiset(b);
    }
  }

  lemma {:induction false} MatchesCount(os: seq<Observation>, slot: Slot, o: Observation)
    ensures multiset(Matches(os, slot))[o] == if Fits(o, slot) then multiset(os)[o] else 0
  {
    if os != [] {
      MatchesCount(os[1..], slot, o);
      assert os == [os[0]] + os[1..];
    }
  }

  lemma SameFound(a: seq<Observation>, b: seq<Observation>, slot: Slot)
    requires Shuffled(a, b)
    ensures |Matches(a, slot)| == |Matches(b, slot)| && ObservationAt(a, slot) == ObservationAt(b, slot)
  {
    var l, r := Matches(a, slot), Matches(b, slot);
    assert multiset(l) == multiset(r) by {
      forall o ensures multiset(l)[o] == multiset(r)[o] {
        MatchesCount(a, slot, o);
        MatchesCount(b, slot, o);
      }
    }
    assert |multiset(l)| == |l| && |multiset(r)| == |r|;
    if |l| == 1 {
      assert l == [l[0]] && r == [r[0]];
      assert l[0] in multiset(r);
    }
  }

  lemma TwiceCounts(b: seq<Observation>, i: nat, j: nat)
    requires i < j < |b| && b[i] == b[j]
    ensures multiset(b)[b[i]] >= 2
  {
    assert b == b[..i] + [b[i]] + b[i + 1..j] + [b[j]] + b[j + 1..];
  }

  lemma CountsTwice(a: seq<Observation>, o: Observation)
    requires multiset(a)[o] >= 2
    ensures exists i, j :: 0 <= i < j < |a| && a[i] == o && a[j] == o
  {
    assert o in a;
    var i :| 0 <= i < |a| && a[i] == o;
    assert a == a[..i] + [o] + a[i + 1..];
    if o in a[..i] {
      var j :| 0 <= j < i && a[..i][j] == o;
      assert a[j] == o;
    } else {
      assert o in multiset(a[i + 1..]);
      var j :| 0 <= j < |a| - i - 1 && a[i + 1..][j] == o;
      assert a[i + 1 + j] == o;
    }
  }

  lemma SameDistinct(a: seq<Observation>, b: seq<Observation>)
    requires Shuffled(a, b) && DistinctKeys(a)
    ensures DistinctKeys(b)
  {
    ShuffledBasics(a, b);
    forall i, j | 0 <= i < j < |b| ensures b[i].key != b[j].key {
      assert b[i] in a && b[j] in a;
      if b[i] == b[j] {
        TwiceCounts(b, i, j);
        CountsTwice(a, b[i]);
      }
    }
  }

  lemma SameShape(a: seq<Observation>, b: seq<Observation>, shape: seq<Slot>)
    requires Shuffled(a, b)
    ensures RequireShape(a, shape) == RequireShape(b, shape)
  {
    hide Matches;
    ShuffledBasics(a, b);
    forall s | s in shape ensures |Matches(a, s)| == |Matches(b, s)| { SameFound(a, b, s); }
    if DistinctKeys(a) { SameDistinct(a, b); }
    if DistinctKeys(b) { SameDistinct(b, a); }
    hide DistinctKeys, Shuffled;
    if a != [] { assert a[0] in b && b[0] in a; }
  }

  lemma SamePieces(a: seq<Observation>, b: seq<Observation>, path: string, kind: ObjectKind)
    requires Shuffled(a, b)
    ensures TargetIn(a, path, kind) == TargetIn(b, path, kind) && AbsentEntryIn(a, path) == AbsentEntryIn(b, path)
    ensures TreeIn(a, path) == TreeIn(b, path)
    ensures Target(a, path, kind) == Target(b, path, kind) && AbsentEntryAlone(a, path) == AbsentEntryAlone(b, path)
    ensures TreeAlone(a, path) == TreeAlone(b, path) && EmptyDirectory(a, path) == EmptyDirectory(b, path)
  {
    hide ObservationAt, RequireShape;
    SameFound(a, b, (Object, path));
    SameFound(a, b, (Entry, path));
    SameFound(a, b, (DirectoryTree, path));
    SameShape(a, b, [(Object, path), (Entry, path)]);
    SameShape(a, b, [(Entry, path)]);
    SameShape(a, b, [(DirectoryTree, path)]);
    SameShape(a, b, [(DirectoryTree, path), (Entry, path)]);
  }

  lemma {:induction false} SameSlots(a: seq<Observation>, b: seq<Observation>, paths: seq<string>)
    requires Shuffled(a, b)
    ensures CommitSlots(a, paths) == CommitSlots(b, paths)
  {
    hide ObservationAt;
    if paths != [] {
      SameSlots(a, b, paths[..|paths| - 1]);
      SameFound(a, b, (Entry, paths[|paths| - 1]));
    }
  }

  lemma SameCommit(a: seq<Observation>, b: seq<Observation>, trackedPaths: seq<string>)
    requires Shuffled(a, b)
    ensures CommitStart(trackedPaths, a) == CommitStart(trackedPaths, b)
  {
    hide RequireShape, CommitSlots, TargetIn, AbsentEntryIn, TreeIn, UniquePaths;
    if UniquePaths(trackedPaths).Ok? {
      var paths := UniquePaths(trackedPaths).value;
      SameSlots(a, b, paths);
      if CommitSlots(a, paths).Ok? { SameShape(a, b, CommitSlots(a, paths).value + [(DirectoryTree, GIT)]); }
      forall p | p in paths
        ensures TargetIn(a, p, RegularFile) == TargetIn(b, p, RegularFile) && AbsentEntryIn(a, p) == AbsentEntryIn(b, p)
      {
        SamePieces(a, b, p, RegularFile);
      }
      SamePieces(a, b, GIT, RegularFile);
    }
  }

  lemma SameRelocationStart(a: seq<Observation>, b: seq<Observation>, o: string, n: string, kind: ObjectKind)
    requires Shuffled(a, b)
    ensures ValidateRelocationStart(o, n, kind, a) == ValidateRelocationStart(o, n, kind, b)
  {
    hide OperationPath, RequireShape, TargetIn, AbsentEntryIn;
    if OperationPath(o).Ok? && OperationPath(n).Ok? {
      var p, q := OperationPath(o).value, OperationPath(n).value;
      SameShape(a, b, [(Object, p), (Entry, p), (Entry, q)]);
      SamePieces(a, b, p, kind);
      SamePieces(a, b, q, kind);
    }
  }

  lemma SamePiecesAt(a: seq<Observation>, b: seq<Observation>, path: string, kind: ObjectKind)
    requires Shuffled(a, b)
    ensures OperationPath(path).Ok? ==>
              var p := OperationPath(path).value;
              && Target(a, p, kind) == Target(b, p, kind) && AbsentEntryAlone(a, p) == AbsentEntryAlone(b, p)
              && TreeAlone(a, p) == TreeAlone(b, p) && EmptyDirectory(a, p) == EmptyDirectory(b, p)
  {
    hide OperationPath, Target, AbsentEntryAlone, TreeAlone, EmptyDirectory;
    if OperationPath(path).Ok? { SamePieces(a, b, OperationPath(path).value, kind); }
  }

  /** Whether observations may start an operation does not depend on their order. */
  lemma StartInAnyOrder(op: Operation, a: seq<Observation>, b: seq<Observation>)
    requires Shuffled(a, b)
    ensures ValidateOperationStart(op, a) == ValidateOperationStart(op, b)
  {
    hide OperationPath, Target, AbsentEntryAlone, TreeAlone, EmptyDirectory, CommitStart, ValidateRelocationStart;
    match op
    case Rename(o, n, entryOnly) => SameRelocationStart(a, b, o, n, TargetKind(entryOnly));
    case Move(o, n, entryOnly) => SameRelocationStart(a, b, o, n, TargetKind(entryOnly));
    case Hardlink(o, n) => SameRelocationStart(a, b, o, n, RegularFile);
    case StructuredCommit(paths) => SameCommit(a, b, paths);
    case Delete(path, entryOnly) => SamePiecesAt(a, b, path, TargetKind(entryOnly));
    case Create(path) => SamePiecesAt(a, b, path, RegularFile);
    case Update(path) => SamePiecesAt(a, b, path, RegularFile);
    case Mkdir(path) => SamePiecesAt(a, b, path, RegularFile);
    case Rmdir(path) => SamePiecesAt(a, b, path, RegularFile);
    case WriteDirectory(path) => SamePiecesAt(a, b, path, RegularFile);
  }

  lemma SameRelocation(s: seq<Observation>, s': seq<Observation>, e: seq<Observation>, e': seq<Observation>,
                       o: string, n: string, kind: ObjectKind)
    requires Shuffled(s, s') && Shuffled(e, e')
    ensures ValidateRelocation(o, n, kind, s, e) == ValidateRelocation(o, n, kind, s', e')
    ensures ValidateHardlink(o, n, s, e) == ValidateHardlink(o, n, s', e')
  {
    hide OperationPath, RequireShape, TargetIn, AbsentEntryIn, ObservationAt;
    if OperationPath(o).Ok? && OperationPath(n).Ok? {
      var p, q := OperationPath(o).value, OperationPath(n).value;
      SameShape(e, e', [(Object, q), (Entry, p), (Entry, q)]);
      SameShape(e, e', [(Object, p), (Entry, p), (Entry, q)]);
      SamePieces(s, s', p, kind);
      SamePieces(s, s', p, RegularFile);
      SamePieces(s, s', q, kind);
      SamePieces(e, e', p, kind);
      SamePieces(e, e', p, RegularFile);
      SamePieces(e, e', q, kind);
      SameFound(e, e', (Entry, q));
    }
  }

  lemma SameCommitTransition(s: seq<Observation>, s': seq<Observation>, e: seq<Observation>, e': seq<Observation>)
    requires Shuffled(s, s') && Shuffled(e, e')
    ensures CommitTransition(s, e) == CommitTransition(s', e')
  {
    hide TreeIn;
    ShuffledBasics(s, s');
    ShuffledBasics(e, e');
    SamePieces(s, s', GIT, RegularFile);
    SamePieces(e, e', GIT, RegularFile);
    hide Shuffled;
  }

  lemma ExpectedInAnyOrder(op: Operation, s: seq<Observation>, s': seq<Observation>, e: seq<Observation>, e': seq<Observation>)
    requires Shuffled(s, s') && Shuffled(e, e')
    ensures ValidateExpectedTransition(op, s, e) == ValidateExpectedTransition(op, s', e')
  {
    hide OperationPath, Target, AbsentEntryAlone, TreeAlone, EmptyDirectory, CommitStart, CommitTransition;
    hide ValidateRelocation, ValidateHardlink;
    match op
    case Rename(o, n, entryOnly) => SameRelocation(s, s', e, e', o, n, TargetKind(entryOnly));
    case Move(o, n, entryOnly) => SameRelocation(s, s', e, e', o, n, TargetKind(entryOnly));
    case Hardlink(o, n) => SameRelocation(s, s', e, e', o, n, RegularFile);
    case StructuredCommit(paths) =>
      SameCommit(e, e', paths);
      SameCommitTransition(s, s', e, e');
    case Delete(path, entryOnly) =>
      SamePiecesAt(s, s', path, TargetKind(entryOnly));
      SamePiecesAt(e, e', path, TargetKind(entryOnly));
    case Create(path) => SamePiecesAt(s, s', path, RegularFile); SamePiecesAt(e, e', path, RegularFile);
    case Update(path) => SamePiecesAt(s, s', path, RegularFile); SamePiecesAt(e, e', path, RegularFile);
    case Mkdir(path) => SamePiecesAt(s, s', path, RegularFile); SamePiecesAt(e, e', path, RegularFile);
    case Rmdir(path) => SamePiecesAt(s, s', path, RegularFile); SamePiecesAt(e, e', path, RegularFile);
    case WriteDirectory(path) => SamePiecesAt(s, s', path, RegularFile); SamePiecesAt(e, e', path, RegularFile);
  }

  /** The verdict on a transition does not depend on the order of any of its lists. */
  lemma TransitionInAnyOrder(op: Operation, s: seq<Observation>, s': seq<Observation>, e: seq<Observation>, e': seq<Observation>,
                             a: seq<Observation>, a': seq<Observation>)
    requires Shuffled(s, s') && Shuffled(e, e') && Shuffled(a, a')
    ensures ValidateOperationTransition(op, s, e, a) == ValidateOperationTransition(op, s', e', a')
  {
    hide ValidateOperationStart, ValidateExpectedTransition;
    StartInAnyOrder(op, s, s');
    ExpectedInAnyOrder(op, s, s', e, e');
    ShuffledBasics(e, e');
    ShuffledBasics(a, a');
    hide Shuffled;
  }

  // ------------------------------------------------------------- the loops

  /** The tracked paths in portable form; a bad or repeated path is refused. */
  method NormalizedUniquePaths(paths: seq<string>) returns (r: Checked<seq<string>>)
    ensures r == if paths == [] then Err(InvalidObservation) else UniquePaths(paths)
    ensures r.Ok? ==> |r.value| == |paths| && forall i, j :: 0 <= i < j < |r.value| ==> r.value[i] != r.value[j]
  {
    hide OperationPath;
    if paths == [] { return Err(InvalidObservation); }
    var normalized: seq<string> := [];
    for n := 0 to |paths|
      invariant UniquePaths(paths[..n]) == Ok(normalized) && |normalized| == n
      invariant forall i, j :: 0 <= i < j < |normalized| ==> normalized[i] != normalized[j]
    {
      assert paths[..n + 1][..n] == paths[..n] && paths[..n + 1][n] == paths[n];
      var path := OperationPath(paths[n]);
      if path.Err? {
        UniquePathsFail(paths, n + 1);
        return Err(path.error);
      }
      if path.value in normalized {
        UniquePathsFail(paths, n + 1);
        return Err(InvalidObservation);
      }
      normalized := normalized + [path.value];
    }
    assert paths[..|paths|] == paths;
    return Ok(normalized);
  }

  lemma {:induction false} UniquePathsFail(paths: seq<string>, n: nat)
    requires n <= |paths| && UniquePaths(paths[..n]).Err?
    ensures UniquePaths(paths) == UniquePaths(paths[..n])
    decreases |paths|
  {
    hide OperationPath;
    if n < |paths| {
      assert paths[..|paths| - 1][..n] == paths[..n];
      UniquePathsFail(paths[..|paths| - 1], n);
    } else {
      assert paths[..n] == paths;
    }
  }

  lemma {:induction false} CommitSlotsFail(os: seq<Observation>, paths: seq<string>, n: nat)
    requires n <= |paths| && CommitSlots(os, paths[..n]).Err?
    ensures CommitSlots(os, paths) == CommitSlots(os, paths[..n])
    decreases |paths|
  {
    hide ObservationAt;
    if n < |paths| {
      assert paths[..|paths| - 1][..n] == paths[..n];
      CommitSlotsFail(os, paths[..|paths| - 1], n);
    } else {
      assert paths[..n] == paths;
    }
  }

  /** The shape of a structured commit, built path by path. */
  method CommitShapeOf(os: seq<Observation>, paths: seq<string>) returns (r: Checked<seq<Slot>>)
    ensures r == CommitSlots(os, paths)
    ensures r.Ok? ==> forall s :: s in r.value <==> Needed(os, paths, s)
  {
    hide ObservationAt;
    var shape: seq<Slot> := [];
    for n := 0 to |paths|
      invariant CommitSlots(os, paths[..n]) == Ok(shape)
    {
      var path := paths[n];
      assert paths[..n + 1][..n] == paths[..n] && paths[..n + 1][n] == path;
      if path == ".git" {
        CommitSlotsFail(os, paths, n + 1);
        return Err(InvalidObservation);
      }
      var entry := ObservationAt(os, (Entry, path));
      if entry.Err? {
        CommitSlotsFail(os, paths, n + 1);
        return Err(entry.error);
      }
      if entry.value.observed.AbsentEntry? {
        shape := shape + [(Entry, path)];
      } else if entry.value.observed.PresentEntry? && entry.value.observed.entryKind == RegularFile {
        shape := shape + [(Entry, path), (Object, path)];
      } else {
        CommitSlotsFail(os, paths, n + 1);
        return Err(InvalidObservation);
      }
    }
    assert paths[..|paths|] == paths;
    SlotsExact(os, paths);
    return Ok(shape);
  }
}
