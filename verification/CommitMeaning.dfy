/** What a structured commit demands of the observations: the `.git` tree and the tracked
    files, each once, and nothing else (crates/stateful-core/src/resource.rs). */
module CommitMeaning {
  import opened Basics
  import opened Resources
  import opened Operations
  import opened OperationProofs
  import opened OperationPieces

  /** The tracked paths in portable form, none of them twice. */
  ghost predicate Tracks(tracked: seq<string>, paths: seq<string>) {
    && |paths| == |tracked|
    && (forall i :: 0 <= i < |tracked| ==> OperationPath(tracked[i]) == Ok(paths[i]))
    && (forall i, j :: 0 <= i < j < |paths| ==> paths[i] != paths[j])
  }

  lemma {:induction false} UniquePathsExact(tracked: seq<string>, paths: seq<string>)
    ensures UniquePaths(tracked) == Ok(paths) <==> Tracks(tracked, paths)
  {
    hide OperationPath;
    if tracked == [] {
      assert Tracks(tracked, paths) <==> paths == [];
    } else {
      var n := |tracked| - 1;
      if UniquePaths(tracked) == Ok(paths) {
        var front := UniquePaths(tracked[..n]).value;
        UniquePathsExact(tracked[..n], front);
        assert forall i :: 0 <= i < n ==> tracked[..n][i] == tracked[i] && paths[i] == front[i];
        assert forall i :: 0 <= i < n ==> front[i] in front;
      }
      if Tracks(tracked, paths) {
        UniquePathsExact(tracked[..n], paths[..n]);
        assert paths == paths[..n] + [paths[n]];
        assert paths[n] !in paths[..n];
      }
    }
  }

  ghost predicate OnePerPlace(os: seq<Observation>) {
    forall i, j :: 0 <= i < j < |os| ==> Place(os[i]) != Place(os[j])
  }

  function Place(o: Observation): Slot { (o.key.id.kind, o.key.path) }

  /** A tracked path names nothing or a regular file. */
  ghost predicate TrackedAt(os: seq<Observation>, path: string) {
    || (exists g :: g in os && GapAt(g, path))
    || (exists x, y :: x in os && y in os && FileAt(x, y, path, RegularFile))
  }

  /** An observation that a commit has a use for: the `.git` tree, the absent entry of a
      tracked path, or one half of a tracked file. */
  ghost predicate Accounted(os: seq<Observation>, paths: seq<string>, o: Observation) {
    || TreeAt(o, ".git")
    || (o.key.path in paths && GapAt(o, o.key.path))
    || (o.key.path in paths && exists c :: c in os && (FileAt(o, c, o.key.path, RegularFile) || FileAt(c, o, o.key.path, RegularFile)))
  }

  /** The `.git` tree and the tracked files, each once, and nothing else. */
  ghost predicate CommitFits(os: seq<Observation>, paths: seq<string>) {
    && paths != [] && ".git" !in paths && Decent(os) && OnePerPlace(os)
    && (exists z :: z in os && TreeAt(z, ".git"))
    && (forall p :: p in paths ==> TrackedAt(os, p))
    && (forall o :: o in os ==> Accounted(os, paths, o))
  }

  lemma FillsOnce(os: seq<Observation>, shape: seq<Slot>)
    requires Fills(os, shape)
    ensures OnePerPlace(os)
  {
    forall i, j | 0 <= i < j < |os| ensures Place(os[i]) != Place(os[j]) {
      assert os[i] in os;
      var s :| s in shape && Fits(os[i], s);
      var x :| OnlyAt(os, s, x);
      var n: nat :| OnlyHere(os, s, x, n);
      assert n == i;
    }
  }

  lemma OnceFound(os: seq<Observation>, slot: Slot, x: Observation)
    requires OnePerPlace(os)
    ensures ObservationAt(os, slot) == Ok(x) <==> x in os && Fits(x, slot)
  {
    hide ObservationAt;
    FoundExact(os, slot, x);
    if x in os && Fits(x, slot) {
      var n: nat :| n < |os| && os[n] == x;
      forall m | 0 <= m < |os| && m != n ensures !Fits(os[m], slot) {
        assert Place(os[m]) != Place(os[n]);
      }
      assert OnlyHere(os, slot, x, n);
    }
  }

  // ---- from the checks to the meaning

  lemma TrackedMeans(os: seq<Observation>, paths: seq<string>, p: string)
    requires CommitSlots(os, paths).Ok? && p in paths && TrackedFileValid(os, CommitSlots(os, paths).value, p)
    ensures TrackedAt(os, p)
  {
    hide CommitSlots, ObservationAt, FileAt, GapAt, TargetIn, AbsentEntryIn;
    if (Object, p) in CommitSlots(os, paths).value {
      var (x, y) := TargetIn(os, p, RegularFile).value;
      TargetInExact(os, p, RegularFile, x, y);
      FoundFits(os, (Object, p));
      FoundFits(os, (Entry, p));
    } else {
      var g := AbsentEntryIn(os, p).value;
      GapInExact(os, p, g);
      FoundFits(os, (Entry, p));
    }
  }

  lemma TrackedAccounts(os: seq<Observation>, paths: seq<string>, p: string, o: Observation)
    requires OnePerPlace(os) && p in paths && TrackedAt(os, p) && o in os && o.key.path == p
    requires o.key.id.kind == Entry || (o.key.id.kind == Object && PresentAt(os, p))
    ensures Accounted(os, paths, o)
  {
    hide NamesEntry, ObjectName, ObservationAt;
    if exists x, y :: x in os && y in os && FileAt(x, y, p, RegularFile) {
      var x, y :| x in os && y in os && FileAt(x, y, p, RegularFile);
      SamePlace(os, o, if o.key.id.kind == Object then x else y);
    } else {
      var g :| g in os && GapAt(g, p);
      OnceFound(os, (Entry, p), g);
      SamePlace(os, o, g);
    }
  }

  lemma SamePlace(os: seq<Observation>, a: Observation, b: Observation)
    requires OnePerPlace(os) && a in os && b in os
    ensures Place(a) == Place(b) ==> a == b
  {
    var i :| 0 <= i < |os| && os[i] == a;
    var j :| 0 <= j < |os| && os[j] == b;
    if i < j { assert Place(os[i]) != Place(os[j]); }
    if j < i { assert Place(os[j]) != Place(os[i]); }
  }

  lemma CheckedAccounts(os: seq<Observation>, paths: seq<string>, z: Observation, o: Observation)
    requires CommitSlots(os, paths).Ok? && Fills(os, CommitSlots(os, paths).value + [(DirectoryTree, GIT)])
    requires TreeIn(os, GIT) == Ok(z) && o in os
    requires forall p :: p in paths ==> TrackedAt(os, p)
    ensures Accounted(os, paths, o)
  {
    hide CommitSlots, TreeIn, TrackedAt, Accounted, PresentAt, Fits;
    var shape := CommitSlots(os, paths).value + [(DirectoryTree, GIT)];
    FillsOnce(os, shape);
    SlotsExact(os, paths);
    var s :| s in shape && Fits(o, s);
    if s in CommitSlots(os, paths).value {
      assert Needed(os, paths, s);
      FitsMeans(o, s);
      TrackedAccounts(os, paths, s.1, o);
    } else {
      assert s == (DirectoryTree, GIT);
      TreeInExact(os, GIT, z);
      OnceFound(os, s, o);
      TreeAccounted(os, paths, o);
    }
  }

  lemma FitsMeans(o: Observation, s: Slot)
    ensures Fits(o, s) <==> Place(o) == s
  {
  }

  lemma TreeAccounted(os: seq<Observation>, paths: seq<string>, o: Observation)
    requires TreeAt(o, GIT)
    ensures Accounted(os, paths, o)
  {
  }

  lemma CommitStartMeans(tracked: seq<string>, os: seq<Observation>)
    requires CommitStart(tracked, os).Ok?
    ensures UniquePaths(tracked).Ok? && CommitFits(os, UniquePaths(tracked).value)
  {
    hide UniquePaths, CommitSlots, RequireShape, TreeIn, TrackedFileValid, Fills, Accounted, TrackedAt, Decent, OnePerPlace;
    hide TreeAt;
    var paths := UniquePaths(tracked).value;
    UniquePathsExact(tracked, paths);
    var shape := CommitSlots(os, paths).value + [(DirectoryTree, GIT)];
    ShapeExact(os, shape);
    FillsOnce(os, shape);
    SlotsExact(os, paths);
    var z := TreeIn(os, GIT).value;
    TreeInExact(os, GIT, z);
    OnceFound(os, (DirectoryTree, GIT), z);
    forall p | p in paths ensures TrackedAt(os, p) { TrackedMeans(os, paths, p); }
    forall o | o in os ensures Accounted(os, paths, o) { CheckedAccounts(os, paths, z, o); }
  }

  // ---- from the meaning to the checks

  lemma TrackedEntry(os: seq<Observation>, path: string)
    requires OnePerPlace(os) && TrackedAt(os, path)
    ensures ObservationAt(os, (Entry, path)).Ok?
    ensures var y := ObservationAt(os, (Entry, path)).value;
            y.observed == AbsentEntry || (y.observed.PresentEntry? && y.observed.entryKind == RegularFile)
  {
    hide NamesEntry, ObjectName, ObservationAt, OnePerPlace;
    if g :| g in os && GapAt(g, path) {
      OnceFound(os, (Entry, path), g);
    } else {
      var x, y :| x in os && y in os && FileAt(x, y, path, RegularFile);
      OnceFound(os, (Entry, path), y);
    }
  }

  lemma {:induction false} SlotsFound(os: seq<Observation>, paths: seq<string>)
    requires OnePerPlace(os) && ".git" !in paths && forall p :: p in paths ==> TrackedAt(os, p)
    ensures CommitSlots(os, paths).Ok?
  {
    hide OnePerPlace, TrackedAt, ObservationAt;
    if paths != [] {
      var n := |paths| - 1;
      assert forall p :: p in paths[..n] ==> p in paths;
      SlotsFound(os, paths[..n]);
      assert paths[n] in paths;
      TrackedEntry(os, paths[n]);
    }
  }

  lemma TrackedValid(os: seq<Observation>, paths: seq<string>, p: string)
    requires OnePerPlace(os) && CommitSlots(os, paths).Ok? && p in paths && TrackedAt(os, p)
    ensures TrackedFileValid(os, CommitSlots(os, paths).value, p)
  {
    hide CommitSlots, ObservationAt, NamesEntry, ObjectName, TargetIn, AbsentEntryIn, OnePerPlace;
    SlotsExact(os, paths);
    assert (Object, p) in CommitSlots(os, paths).value <==> Needed(os, paths, (Object, p));
    if g :| g in os && GapAt(g, p) {
      OnceFound(os, (Entry, p), g);
      GapInExact(os, p, g);
    } else {
      var x, y :| x in os && y in os && FileAt(x, y, p, RegularFile);
      OnceFound(os, (Object, p), x);
      OnceFound(os, (Entry, p), y);
      TargetInExact(os, p, RegularFile, x, y);
    }
  }

  /** The places observed are exactly the places a commit over these paths needs. */
  lemma AccountedNeeded(os: seq<Observation>, paths: seq<string>, o: Observation)
    requires OnePerPlace(os) && o in os && Accounted(os, paths, o)
    ensures Place(o) == (DirectoryTree, GIT) || Needed(os, paths, Place(o))
  {
    hide NamesEntry, ObjectName, DirectoryName, ObservationAt, OnePerPlace;
    var p := o.key.path;
    if c :| c in os && FileAt(o, c, p, RegularFile) {
      OnceFound(os, (Entry, p), c);
    }
  }

  lemma NeededOccupied(os: seq<Observation>, paths: seq<string>, s: Slot)
    requires OnePerPlace(os) && Needed(os, paths, s) && TrackedAt(os, s.1)
    ensures exists o :: o in os && Place(o) == s
  {
    hide NamesEntry, ObjectName, ObservationAt, OnePerPlace;
    var p := s.1;
    if g :| g in os && GapAt(g, p) {
      OnceFound(os, (Entry, p), g);
      assert Place(g) == (Entry, p);
    } else {
      var x, y :| x in os && y in os && FileAt(x, y, p, RegularFile);
      assert Place(x) == (Object, p) && Place(y) == (Entry, p);
    }
  }

  // ---- counting

  ghost predicate NoRepeats(s: seq<Slot>) { forall i, j :: 0 <= i < j < |s| ==> s[i] != s[j] }

  lemma {:induction false} CountDistinct(s: seq<Slot>)
    requires NoRepeats(s)
    ensures |set x | x in s| == |s|
  {
    if s != [] {
      var n := |s| - 1;
      CountDistinct(s[..n]);
      assert s == s[..n] + [s[n]];
      assert s[n] !in s[..n];
      assert (set x | x in s) == (set x | x in s[..n]) + {s[n]};
    }
  }

  lemma SameCount(a: seq<Slot>, b: seq<Slot>)
    requires NoRepeats(a) && NoRepeats(b) && forall x :: x in a <==> x in b
    ensures |a| == |b|
  {
    CountDistinct(a);
    CountDistinct(b);
    assert (set x | x in a) == (set x | x in b);
  }

  function Places(os: seq<Observation>): (r: seq<Slot>)
    ensures |r| == |os| && forall i :: 0 <= i < |os| ==> r[i] == Place(os[i])
  {
    seq(|os|, i requires 0 <= i < |os| => Place(os[i]))
  }

  lemma {:induction false} SlotsNoRepeats(os: seq<Observation>, paths: seq<string>)
    requires CommitSlots(os, paths).Ok? && forall i, j :: 0 <= i < j < |paths| ==> paths[i] != paths[j]
    ensures NoRepeats(CommitSlots(os, paths).value)
  {
    hide ObservationAt;
    if paths != [] {
      var n := |paths| - 1;
      var front := CommitSlots(os, paths[..n]).value;
      SlotsNoRepeats(os, paths[..n]);
      SlotsExact(os, paths[..n]);
      hide Needed;
      forall s | s in front ensures s.1 != paths[n] { NeededAmong(os, paths[..n], s); }
    }
  }

  lemma NeededAmong(os: seq<Observation>, paths: seq<string>, s: Slot)
    requires Needed(os, paths, s)
    ensures s.1 in paths && s.0 != DirectoryTree
  {
  }

  lemma CommitFills(os: seq<Observation>, paths: seq<string>)
    requires CommitFits(os, paths) && CommitSlots(os, paths).Ok?
    requires forall i, j :: 0 <= i < j < |paths| ==> paths[i] != paths[j]
    ensures Fills(os, CommitSlots(os, paths).value + [(DirectoryTree, GIT)])
  {
    hide CommitSlots, Accounted, TrackedAt, Decent, TreeAt, Needed, ObservationAt, OnlyAt;
    var slots := CommitSlots(os, paths).value;
    var shape := slots + [(DirectoryTree, GIT)];
    SlotsExact(os, paths);
    SlotsNoRepeats(os, paths);
    forall s | s in shape ensures exists o :: o in os && Place(o) == s { ShapeOccupied(os, paths, s); }
    forall o | o in os ensures Place(o) in shape {
      AccountedNeeded(os, paths, o);
      assert shape[|slots|] in shape;
    }
    forall s | s in slots ensures s != (DirectoryTree, GIT) { NeededAmong(os, paths, s); }
    assert forall i :: 0 <= i < |slots| ==> shape[i] == slots[i] && slots[i] in slots;
    assert NoRepeats(shape);
    PlacesCounted(os, shape);
    forall s | s in shape ensures exists x :: OnlyAt(os, s, x) {
      var o :| o in os && Place(o) == s;
      OnceFound(os, s, o);
      FoundExact(os, s, o);
    }
  }

  lemma ShapeOccupied(os: seq<Observation>, paths: seq<string>, s: Slot)
    requires CommitFits(os, paths) && (s == (DirectoryTree, GIT) || Needed(os, paths, s))
    ensures exists o :: o in os && Place(o) == s
  {
    hide Accounted, TrackedAt, Decent, ObservationAt, OnePerPlace, PresentAt;
    if s == (DirectoryTree, GIT) {
      var z :| z in os && TreeAt(z, GIT);
      assert Place(z) == s;
    } else {
      NeededOccupied(os, paths, s);
    }
  }

  lemma PlacesCounted(os: seq<Observation>, shape: seq<Slot>)
    requires OnePerPlace(os) && NoRepeats(shape)
    requires forall s :: s in shape ==> exists o :: o in os && Place(o) == s
    requires forall o :: o in os ==> Place(o) in shape
    ensures |os| == |shape|
  {
    hide Place;
    var places := Places(os);
    forall s ensures s in places <==> s in shape {
      if s in shape {
        var o :| o in os && Place(o) == s;
        var i :| 0 <= i < |os| && os[i] == o;
        assert places[i] == s;
      }
      if s in places {
        var i :| 0 <= i < |os| && places[i] == s;
        assert os[i] in os;
      }
    }
    SameCount(places, shape);
  }

  lemma MeantCommitStarts(tracked: seq<string>, os: seq<Observation>, paths: seq<string>)
    requires Tracks(tracked, paths) && CommitFits(os, paths)
    ensures CommitStart(tracked, os).Ok?
  {
    hide UniquePaths, CommitSlots, RequireShape, TreeIn, TrackedFileValid, Fills, Accounted, TrackedAt, Decent, OnePerPlace;
    hide TreeAt, OperationPath;
    UniquePathsExact(tracked, paths);
    SlotsFound(os, paths);
    CommitFills(os, paths);
    ShapeExact(os, CommitSlots(os, paths).value + [(DirectoryTree, GIT)]);
    var z :| z in os && TreeAt(z, GIT);
    TreeFits(z);
    OnceFound(os, (DirectoryTree, GIT), z);
    TreeInExact(os, GIT, z);
    forall p | p in paths ensures TrackedFileValid(os, CommitSlots(os, paths).value, p) { TrackedValid(os, paths, p); }
  }

  lemma TreeFits(z: Observation)
    requires TreeAt(z, GIT)
    ensures Fits(z, (DirectoryTree, GIT))
  {
  }

  /** Observations may start a structured commit exactly if they are the `.git` tree and the
      tracked files, each once. */
  lemma CommitStartExact(tracked: seq<string>, os: seq<Observation>)
    ensures CommitStart(tracked, os).Ok? <==> exists paths :: Tracks(tracked, paths) && CommitFits(os, paths)
  {
    hide CommitStart, UniquePaths, CommitFits, Tracks;
    if CommitStart(tracked, os).Ok? {
      CommitStartMeans(tracked, os);
      UniquePathsExact(tracked, UniquePaths(tracked).value);
    }
    if paths :| Tracks(tracked, paths) && CommitFits(os, paths) {
      MeantCommitStarts(tracked, os, paths);
    }
  }

  // ------------------------------------------------------------ transition

  /** The snapshot of the `.git` tree changes, the tree stays the same directory, and
      everything else is as it was. */
  ghost predicate OnlyGitMoves(start: seq<Observation>, post: seq<Observation>, before: Observation, after: Observation) {
    && before in start && after in post && TreeAt(before, ".git") && TreeAt(after, ".git")
    && after.key == before.key
    && after.observed.treeDevice == before.observed.treeDevice && after.observed.treeInode == before.observed.treeInode
    && after.observed.snapshot != before.observed.snapshot
    && (forall o :: o in start && o != before ==> exists c :: c in post && c.key == o.key && c.observed == o.observed)
  }

  lemma GitKey(os: seq<Observation>, z: Observation, o: Observation)
    requires OnePerPlace(os) && z in os && o in os
    ensures o.key == z.key <==> o == z
  {
    SamePlace(os, o, z);
  }

  lemma GitMovesExact(start: seq<Observation>, post: seq<Observation>, before: Observation, after: Observation)
    requires OnePerPlace(start) && TreeIn(start, GIT) == Ok(before) && TreeIn(post, GIT) == Ok(after) && before in start
    requires after in post && TreeAt(before, GIT) && TreeAt(after, GIT)
    ensures CommitTransition(start, post).Ok? <==> OnlyGitMoves(start, post, before, after)
  {
    hide TreeIn, TreeAt, OnePerPlace;
    forall o | o in start ensures o.key == before.key <==> o == before { GitKey(start, before, o); }
  }

  lemma GitFound(os: seq<Observation>, z: Observation)
    requires OnePerPlace(os)
    ensures TreeIn(os, GIT) == Ok(z) <==> z in os && TreeAt(z, GIT)
  {
    hide ObservationAt, DirectoryName, TreeIn, OnePerPlace;
    OnceFound(os, (DirectoryTree, GIT), z);
    TreeInExact(os, GIT, z);
  }

  lemma CommitChangeExact(start: seq<Observation>, post: seq<Observation>)
    requires OnePerPlace(start) && OnePerPlace(post)
    ensures CommitTransition(start, post).Ok? <==> exists before, after :: OnlyGitMoves(start, post, before, after)
  {
    hide TreeIn, OnePerPlace, TreeAt;
    if CommitTransition(start, post).Ok? {
      CommitTransitionMeans(start, post);
      var before, after := TreeIn(start, GIT).value, TreeIn(post, GIT).value;
      GitFound(start, before);
      GitFound(post, after);
      GitMovesExact(start, post, before, after);
    }
    if before, after :| OnlyGitMoves(start, post, before, after) {
      GitFound(start, before);
      GitFound(post, after);
      GitMovesExact(start, post, before, after);
    }
  }
}
