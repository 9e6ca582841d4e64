/** No crash, wherever it strikes and however often, loses the legacy data or leaves
    a database of mixed generations (crates/stateful-store/src/migration_v2.rs). */
module MigrationProofs {
  import opened Basics
  import opened Migration

  // --------------------------------------------------------- joining lists

  lemma {:induction false} Join(fs: Files, a: seq<Op>, b: seq<Op>)
    ensures ApplyAll(fs, a + b) == ApplyAll(ApplyAll(fs, a), b)
    decreases |a|
  {
    hide Apply;
    if a == [] {
      assert a + b == b;
    } else {
      assert (a + b)[1..] == a[1..] + b;
      Join(Apply(fs, a[0]), a[1..], b);
    }
  }

  lemma {:induction false} EnabledJoin(fs: Files, a: seq<Op>, b: seq<Op>)
    requires AllEnabled(fs, a) && AllEnabled(ApplyAll(fs, a), b)
    ensures AllEnabled(fs, a + b)
    decreases |a|
  {
    hide Apply, Enabled;
    if a == [] {
      assert a + b == b;
    } else {
      assert (a + b)[1..] == a[1..] + b;
      EnabledJoin(Apply(fs, a[0]), a[1..], b);
    }
  }

  lemma {:induction false} SafeJoin(fs: Files, a: seq<Op>, b: seq<Op>, data: Data)
    requires SafeAlong(fs, a, data) && SafeAlong(ApplyAll(fs, a), b, data)
    ensures SafeAlong(fs, a + b, data)
    decreases |a|
  {
    hide Apply, Safe;
    if a == [] {
      assert a + b == b;
    } else {
      assert (a + b)[1..] == a[1..] + b;
      SafeJoin(Apply(fs, a[0]), a[1..], b, data);
    }
  }

  /** Steps that are safe to cut short anywhere are safe however many are taken. */
  lemma {:induction false} SafeWherever(fs: Files, steps: nat, ops: seq<Op>, data: Data)
    requires SafeAlong(fs, ops, data)
    ensures Safe(Exec(fs, steps, ops).0, data)
    ensures steps >= |ops| ==> Exec(fs, steps, ops) == (ApplyAll(fs, ops), steps - |ops|)
    decreases |ops|
  {
    hide Apply, Safe;
    if ops != [] && steps > 0 { SafeWherever(Apply(fs, ops[0]), steps - 1, ops[1..], data); }
  }

  // ----------------------------------------------------------- what is touched

  function Touches(op: Op): set<FileName> {
    match op
    case Remove(f) => {f}
    case Create(f) => {f}
    case Write(f, _) => {f}
    case Move(s, t) => {s, t}
  }

  ghost predicate Avoids(ops: seq<Op>, f: FileName) { forall op :: op in ops ==> f !in Touches(op) }

  predicate SameAt(fs: Files, gs: Files, f: FileName) { (f in fs <==> f in gs) && (f in fs ==> gs[f] == fs[f]) }

  lemma {:induction false} Untouched(fs: Files, ops: seq<Op>, f: FileName)
    requires Avoids(ops, f)
    ensures SameAt(fs, ApplyAll(fs, ops), f)
    decreases |ops|
  {
    if ops != [] {
      assert ops[0] in ops;
      Untouched(Apply(fs, ops[0]), ops[1..], f);
    }
  }

  /** The manifest vouches for the backup. */
  predicate Secured(fs: Files, data: Data) {
    File(Manifest) in fs && fs[File(Manifest)].Marker? && !fs[File(Manifest)].stage.BackupPending? && BackedUp(fs, data)
  }

  lemma {:induction false} SecuredAlong(fs: Files, ops: seq<Op>, data: Data)
    requires Secured(fs, data) && Avoids(ops, File(Manifest)) && Avoids(ops, File(Backup))
    ensures SafeAlong(fs, ops, data) && Secured(ApplyAll(fs, ops), data)
    decreases |ops|
  {
    if ops != [] {
      assert ops[0] in ops;
      assert Secured(Apply(fs, ops[0]), data);
      SecuredAlong(Apply(fs, ops[0]), ops[1..], data);
    }
  }

  /** The main file and its logs. */
  ghost predicate AvoidsMain(ops: seq<Op>) { Avoids(ops, File(Main)) && forall s :: Avoids(ops, Side(Main, s)) }

  predicate SameMain(fs: Files, gs: Files) { SameAt(fs, gs, File(Main)) && forall s :: SameAt(fs, gs, Side(Main, s)) }

  lemma SameMainReads(fs: Files, gs: Files, data: Data)
    requires SameMain(fs, gs) && LegacyInPlace(fs, data)
    ensures LegacyInPlace(gs, data)
  {
    assert SameAt(fs, gs, Side(Main, Wal));
  }

  lemma OneStepMain(fs: Files, op: Op)
    requires AvoidsMain([op])
    ensures SameMain(fs, Apply(fs, op))
  {
    assert op in [op];
    forall s ensures SameAt(fs, Apply(fs, op), Side(Main, s)) { assert Avoids([op], Side(Main, s)); }
  }

  /** The legacy database stays in place while only other files move, whether the
      manifest is absent or says that the backup is not yet there. */
  lemma {:induction false} InPlaceAlong(fs: Files, ops: seq<Op>, data: Data)
    requires LegacyInPlace(fs, data) && AvoidsMain(ops) && Avoids(ops, File(Manifest))
    requires File(Manifest) in fs ==> fs[File(Manifest)] == Marker(BackupPending)
    ensures SafeAlong(fs, ops, data) && LegacyInPlace(ApplyAll(fs, ops), data)
    ensures SameAt(fs, ApplyAll(fs, ops), File(Manifest))
    decreases |ops|
  {
    Untouched(fs, ops, File(Manifest));
    hide LegacyInPlace;
    if ops != [] {
      assert ops[0] in ops;
      FirstAvoidsMain(ops);
      OneStepMain(fs, ops[0]);
      SameMainReads(fs, Apply(fs, ops[0]), data);
      InPlaceAlong(Apply(fs, ops[0]), ops[1..], data);
    }
  }

  lemma FirstAvoidsMain(ops: seq<Op>)
    requires ops != [] && AvoidsMain(ops)
    ensures AvoidsMain([ops[0]]) && AvoidsMain(ops[1..])
  {
    assert ops[0] in ops;
    forall s ensures Avoids([ops[0]], Side(Main, s)) && Avoids(ops[1..], Side(Main, s)) { assert Avoids(ops, Side(Main, s)); }
  }

  // ------------------------------------------------------------- procedures

  lemma Four(fs: Files, ops: seq<Op>)
    requires |ops| == 4
    ensures var f1 := Apply(fs, ops[0]); var f2 := Apply(f1, ops[1]); var f3 := Apply(f2, ops[2]);
            && ApplyAll(fs, ops) == Apply(f3, ops[3])
            && (AllEnabled(fs, ops) <==> Enabled(fs, ops[0]) && Enabled(f1, ops[1]) && Enabled(f2, ops[2]) && Enabled(f3, ops[3]))
  {
    hide Apply, Enabled;
    var f1 := Apply(fs, ops[0]); var f2 := Apply(f1, ops[1]); var f3 := Apply(f2, ops[2]);
    var r1, r2, r3 := ops[1..], ops[2..], ops[3..];
    assert r1[1..] == r2 && r2[1..] == r3 && r3[1..] == [];
    assert ApplyAll(f3, r3) == Apply(f3, ops[3]);
    assert ApplyAll(f2, r2) == ApplyAll(f3, r3);
    assert ApplyAll(f1, r1) == ApplyAll(f2, r2);
    assert AllEnabled(f3, r3) <==> Enabled(f3, ops[3]);
    assert AllEnabled(f2, r2) <==> Enabled(f2, ops[2]) && AllEnabled(f3, r3);
    assert AllEnabled(f1, r1) <==> Enabled(f1, ops[1]) && AllEnabled(f2, r2);
  }

  lemma Five(fs: Files, ops: seq<Op>)
    requires |ops| == 5
    ensures var f1 := Apply(fs, ops[0]); var f2 := Apply(f1, ops[1]); var f3 := Apply(f2, ops[2]); var f4 := Apply(f3, ops[3]);
            && ApplyAll(fs, ops) == Apply(f4, ops[4])
            && (AllEnabled(fs, ops) <==>
                  Enabled(fs, ops[0]) && Enabled(f1, ops[1]) && Enabled(f2, ops[2]) && Enabled(f3, ops[3]) && Enabled(f4, ops[4]))
  {
    hide Apply, Enabled;
    Four(Apply(fs, ops[0]), ops[1..]);
  }

  /** Writing a marker aside and moving it into place changes the manifest in one step. */
  lemma PersistApplied(fs: Files, stage: Stage)
    ensures ApplyAll(fs, Persist(stage)) == (fs - {File(ManifestTmp)})[File(Manifest) := Marker(stage)]
    ensures AllEnabled(fs, Persist(stage))
  {
    var ops := Persist(stage);
    var f1 := Apply(fs, ops[0]);
    var f4 := Apply(Apply(Apply(f1, ops[1]), ops[2]), ops[3]);
    assert f4 == f1[File(ManifestTmp) := Marker(stage)];
    assert Apply(f4, ops[4]) == f1[File(Manifest) := Marker(stage)];
    Five(fs, ops);
  }

  lemma BackupApplied(fs: Files, data: Data)
    ensures ApplyAll(fs, CreateBackup(data)) == fs[File(Backup) := Database(Old, data)]
    ensures AllEnabled(fs, CreateBackup(data))
  {
    Four(fs, CreateBackup(data));
    var f1 := fs - {File(Backup)};
    assert f1[File(Backup) := Blank][File(Backup) := Partial][File(Backup) := Database(Old, data)] == fs[File(Backup) := Database(Old, data)];
  }

  lemma {:induction false} RemovesEnabled(fs: Files, ops: seq<Op>)
    requires forall op :: op in ops ==> op.Remove?
    ensures AllEnabled(fs, ops)
    decreases |ops|
  {
    hide Apply;
    if ops != [] {
      assert ops[0] in ops;
      RemovesEnabled(Apply(fs, ops[0]), ops[1..]);
    }
  }

  lemma {:induction false} WritesEnabled(fs: Files, ops: seq<Op>)
    requires forall op :: op in ops ==> op.Write? && op.file in fs
    ensures AllEnabled(fs, ops)
    decreases |ops|
  {
    if ops != [] {
      assert ops[0] in ops;
      WritesEnabled(Apply(fs, ops[0]), ops[1..]);
    }
  }

  lemma RemoveSetApplied(fs: Files, b: Base)
    ensures ApplyAll(fs, RemoveSet(b)) == fs - {File(b), Side(b, Wal), Side(b, Shm), Side(b, Journal)}
    ensures AllEnabled(fs, RemoveSet(b))
  {
    Four(fs, RemoveSet(b));
  }

  lemma LastStep(fs: Files, ops: seq<Op>, op: Op, data: Data)
    requires SafeAlong(fs, ops, data) && Safe(ApplyAll(fs, ops + [op]), data)
    ensures SafeAlong(fs, ops + [op], data)
  {
    hide Apply, Safe;
    Join(fs, ops, [op]);
    var g := ApplyAll(fs, ops);
    assert ApplyAll(g, [op]) == Apply(g, op) by { assert [op][1..] == []; }
    EndSafe(fs, ops, data);
    assert SafeAlong(g, [op], data) by { assert [op][1..] == []; }
    SafeJoin(fs, ops, [op], data);
  }

  lemma {:induction false} EndSafe(fs: Files, ops: seq<Op>, data: Data)
    requires SafeAlong(fs, ops, data)
    ensures Safe(ApplyAll(fs, ops), data)
    decreases |ops|
  {
    hide Apply, Safe;
    if ops != [] { EndSafe(Apply(fs, ops[0]), ops[1..], data); }
  }

  // ----------------------------------------------------------------- phases

  /** The steps can all be taken and may be cut short anywhere. */
  ghost predicate Good(fs: Files, ops: seq<Op>, data: Data) { SafeAlong(fs, ops, data) && AllEnabled(fs, ops) }

  lemma GoodJoin(fs: Files, a: seq<Op>, b: seq<Op>, data: Data)
    requires Good(fs, a, data) && Good(ApplyAll(fs, a), b, data)
    ensures Good(fs, a + b, data) && ApplyAll(fs, a + b) == ApplyAll(ApplyAll(fs, a), b)
  {
    hide AllEnabled, SafeAlong, ApplyAll;
    Join(fs, a, b);
    EnabledJoin(fs, a, b);
    SafeJoin(fs, a, b, data);
  }

  lemma GoodSteps(fs: Files, phases: seq<Phase>, data: Data)
    requires phases != [] && Good(fs, phases[0].Ops(fs), data)
    requires var gs := ApplyAll(fs, phases[0].Ops(fs)); Good(gs, Steps(gs, phases[1..]), data)
    ensures Good(fs, Steps(fs, phases), data)
    ensures var gs := ApplyAll(fs, phases[0].Ops(fs)); ApplyAll(fs, Steps(fs, phases)) == ApplyAll(gs, Steps(gs, phases[1..]))
  {
    hide ApplyAll, Good;
    var ops := phases[0].Ops(fs);
    GoodJoin(fs, ops, Steps(ApplyAll(fs, ops), phases[1..]), data);
  }

  lemma PersistFront(stage: Stage)
    ensures Persist(stage) == Persist(stage)[..4] + [Move(File(ManifestTmp), File(Manifest))]
    ensures AvoidsMain(Persist(stage)[..4]) && Avoids(Persist(stage)[..4], File(Manifest)) && Avoids(Persist(stage)[..4], File(Backup))
  {
  }

  /** Once the backup is secured, a later marker keeps it so. */
  lemma PersistSecured(fs: Files, stage: Stage, data: Data)
    requires !stage.BackupPending? && Safe(fs, data) && BackedUp(fs, data)
    requires File(Manifest) in fs
    ensures Good(fs, Persist(stage), data) && Secured(ApplyAll(fs, Persist(stage)), data)
    ensures forall f :: f != File(Manifest) && f != File(ManifestTmp) ==> SameAt(fs, ApplyAll(fs, Persist(stage)), f)
  {
    PersistApplied(fs, stage);
    PersistFront(stage);
    var front := Persist(stage)[..4];
    if fs[File(Manifest)].stage.BackupPending? {
      InPlaceAlong(fs, front, data);
    } else {
      SecuredAlong(fs, front, data);
    }
    LastStep(fs, front, Move(File(ManifestTmp), File(Manifest)), data);
  }

  lemma PersistPending(fs: Files, data: Data)
    requires LegacyInPlace(fs, data) && File(Manifest) !in fs
    ensures Good(fs, Persist(BackupPending), data)
    ensures var gs := ApplyAll(fs, Persist(BackupPending));
            LegacyInPlace(gs, data) && File(Manifest) in gs && gs[File(Manifest)] == Marker(BackupPending)
  {
    PersistApplied(fs, BackupPending);
    PersistFront(BackupPending);
    var front := Persist(BackupPending)[..4];
    InPlaceAlong(fs, front, data);
    SameMainReads(fs, ApplyAll(fs, Persist(BackupPending)), data);
    LastStep(fs, front, Move(File(ManifestTmp), File(Manifest)), data);
  }

  lemma BackupPhase(fs: Files, data: Data)
    requires LegacyInPlace(fs, data) && File(Manifest) in fs && fs[File(Manifest)] == Marker(BackupPending)
    ensures Good(fs, CreateBackup(data), data)
    ensures var gs := ApplyAll(fs, CreateBackup(data));
            Safe(gs, data) && BackedUp(gs, data) && File(Main) in gs && File(Manifest) in gs
  {
    var ops := CreateBackup(data);
    BackupApplied(fs, data);
    assert AvoidsMain(ops) && Avoids(ops, File(Manifest));
    InPlaceAlong(fs, ops, data);
    EndSafe(fs, ops, data);
  }

  lemma CheckpointPhase(fs: Files, data: Data)
    requires Secured(fs, data) && File(Main) in fs
    ensures Good(fs, Checkpoint(fs, data), data) && Secured(ApplyAll(fs, Checkpoint(fs, data)), data)
  {
    var ops := Checkpoint(fs, data);
    assert Avoids(ops, File(Manifest)) && Avoids(ops, File(Backup));
    SecuredAlong(fs, ops, data);
    hide SafeAlong, Secured;
    var writes := [Write(File(Main), Partial), Write(File(Main), Database(Old, data))];
    var log := if Side(Main, Wal) in fs then [Write(Side(Main, Wal), Blank)] else [];
    var removes := [Remove(Side(Main, Wal)), Remove(Side(Main, Shm))];
    WritesEnabled(fs, writes);
    Untouched(fs, writes, Side(Main, Wal));
    var g := ApplyAll(fs, writes);
    WritesEnabled(g, log);
    EnabledJoin(fs, writes, log);
    RemovesEnabled(ApplyAll(fs, writes + log), removes);
    EnabledJoin(fs, writes + log, removes);
    assert ops == writes + log + removes;
  }

  ghost predicate NoMain(fs: Files) { File(Main) !in fs && forall s :: Side(Main, s) !in fs }

  /** Moving a file away, decided by how things stood before the other moves. */
  lemma MoveApplied(fs: Files, gs: Files, source: FileName, target: FileName)
    requires source != target && SameAt(fs, gs, source)
    ensures AllEnabled(gs, MoveIfExists(fs, source, target))
    ensures source !in ApplyAll(gs, MoveIfExists(fs, source, target))
    ensures forall f :: f != source && f != target ==> SameAt(gs, ApplyAll(gs, MoveIfExists(fs, source, target)), f)
  {
    var ops := MoveIfExists(fs, source, target);
    if source in fs {
      assert ops[1..] == [ops[1]] && [ops[1]][1..] == [];
      var g := Apply(gs, ops[0]);
      assert ApplyAll(g, [ops[1]]) == Apply(g, ops[1]);
      assert AllEnabled(g, [ops[1]]);
    }
  }

  lemma QuarantineApplied(fs: Files)
    ensures AllEnabled(fs, Quarantine(fs)) && NoMain(ApplyAll(fs, Quarantine(fs)))
  {
    hide MoveIfExists, AllEnabled, ApplyAll;
    var a := MoveIfExists(fs, File(Main), File(Recovery));
    var b := MoveIfExists(fs, Side(Main, Wal), Side(Recovery, Wal));
    var c := MoveIfExists(fs, Side(Main, Shm), Side(Recovery, Shm));
    var d := MoveIfExists(fs, Side(Main, Journal), Side(Recovery, Journal));
    MoveApplied(fs, fs, File(Main), File(Recovery));
    var g := ApplyAll(fs, a);
    MoveApplied(fs, g, Side(Main, Wal), Side(Recovery, Wal));
    var h := ApplyAll(g, b);
    assert SameAt(fs, g, Side(Main, Shm)) && SameAt(g, h, Side(Main, Shm));
    MoveApplied(fs, h, Side(Main, Shm), Side(Recovery, Shm));
    var i := ApplyAll(h, c);
    assert SameAt(fs, g, Side(Main, Journal)) && SameAt(g, h, Side(Main, Journal)) && SameAt(h, i, Side(Main, Journal));
    MoveApplied(fs, i, Side(Main, Journal), Side(Recovery, Journal));
    var j := ApplyAll(i, d);
    Join(fs, a, b); Join(fs, a + b, c); Join(fs, a + b + c, d);
    EnabledJoin(fs, a, b); EnabledJoin(fs, a + b, c); EnabledJoin(fs, a + b + c, d);
    assert SameAt(g, h, File(Main)) && SameAt(h, i, File(Main)) && SameAt(i, j, File(Main));
    assert SameAt(h, i, Side(Main, Wal)) && SameAt(i, j, Side(Main, Wal)) && SameAt(i, j, Side(Main, Shm));
    forall s ensures Side(Main, s) !in j {
      assert s == Wal || s == Shm || s == Journal;
    }
  }

  lemma QuarantineAvoids(fs: Files, f: FileName)
    requires f == File(Manifest) || f == File(Backup)
    ensures Avoids(Quarantine(fs), f)
  {
    assert Avoids(MoveIfExists(fs, File(Main), File(Recovery)), f);
    assert Avoids(MoveIfExists(fs, Side(Main, Wal), Side(Recovery, Wal)), f);
    assert Avoids(MoveIfExists(fs, Side(Main, Shm), Side(Recovery, Shm)), f);
    assert Avoids(MoveIfExists(fs, Side(Main, Journal), Side(Recovery, Journal)), f);
    hide MoveIfExists, Touches;
  }

  lemma QuarantinePhase(fs: Files, data: Data)
    requires Secured(fs, data)
    ensures Good(fs, Quarantine(fs), data) && Secured(ApplyAll(fs, Quarantine(fs)), data)
    ensures NoMain(ApplyAll(fs, Quarantine(fs)))
  {
    hide Quarantine, Secured;
    var ops := Quarantine(fs);
    QuarantineApplied(fs);
    QuarantineAvoids(fs, File(Manifest));
    QuarantineAvoids(fs, File(Backup));
    SecuredAlong(fs, ops, data);
  }

  lemma CandidateApplied(fs: Files)
    ensures AllEnabled(fs, CreateCandidate())
    ensures var gs := ApplyAll(fs, CreateCandidate()); File(Candidate) in gs && gs[File(Candidate)] == Database(New, FRESH)
  {
    var a := RemoveSet(Candidate);
    var b := [Create(File(Candidate)), Create(Side(Candidate, Wal)), Write(Side(Candidate, Wal), Log(New, FRESH)),
              Write(File(Candidate), Partial), Write(File(Candidate), Database(New, FRESH))];
    var c := [Remove(Side(Candidate, Wal)), Remove(Side(Candidate, Shm)), Remove(Side(Candidate, Journal))];
    assert CreateCandidate() == a + b + c;
    RemoveSetApplied(fs, Candidate);
    var g := ApplyAll(fs, a);
    Five(g, b);
    var h := ApplyAll(g, b);
    RemovesEnabled(h, c);
    Untouched(h, c, File(Candidate));
    hide ApplyAll, AllEnabled;
    Join(fs, a, b); Join(fs, a + b, c);
    EnabledJoin(fs, a, b); EnabledJoin(fs, a + b, c);
  }

  lemma NoMainKept(fs: Files, ops: seq<Op>)
    requires NoMain(fs) && AvoidsMain(ops)
    ensures NoMain(ApplyAll(fs, ops))
  {
    hide ApplyAll;
    Untouched(fs, ops, File(Main));
    forall s ensures Side(Main, s) !in ApplyAll(fs, ops) {
      assert Avoids(ops, Side(Main, s));
      Untouched(fs, ops, Side(Main, s));
    }
  }

  lemma CandidateAvoids(f: FileName)
    requires f == File(Manifest) || f == File(Backup) || f == File(Main) || (f.Side? && f.of == Main)
    ensures Avoids(CreateCandidate(), f)
  {
  }

  lemma CandidatePhase(fs: Files, data: Data)
    requires Secured(fs, data) && NoMain(fs)
    ensures var ops := CreateCandidate();
            var gs := ApplyAll(fs, ops);
            && Good(fs, ops, data) && Secured(gs, data) && NoMain(gs)
            && File(Candidate) in gs && gs[File(Candidate)] == Database(New, FRESH)
  {
    var ops := CreateCandidate();
    CandidateApplied(fs);
    hide CreateCandidate, Secured, Avoids;
    CandidateAvoids(File(Manifest));
    CandidateAvoids(File(Backup));
    CandidateAvoids(File(Main));
    forall s ensures Avoids(ops, Side(Main, s)) { CandidateAvoids(Side(Main, s)); }
    SecuredAlong(fs, ops, data);
    NoMainKept(fs, ops);
  }

  /** The new database is in place and nothing of the old one is left beside it. */
  predicate Promoted(fs: Files) {
    File(Main) in fs && fs[File(Main)] == Database(New, FRESH) && forall s :: Side(Main, s) !in fs
  }

  lemma PromotePhase(fs: Files, data: Data)
    requires Secured(fs, data) && NoMain(fs) && File(Candidate) in fs && fs[File(Candidate)] == Database(New, FRESH)
    ensures var ops := [Move(File(Candidate), File(Main))];
            Good(fs, ops, data) && Secured(ApplyAll(fs, ops), data) && Promoted(ApplyAll(fs, ops))
  {
    var ops := [Move(File(Candidate), File(Main))];
    assert Avoids(ops, File(Manifest)) && Avoids(ops, File(Backup));
    SecuredAlong(fs, ops, data);
    assert ops[1..] == [];
    assert ApplyAll(fs, ops) == Apply(fs, ops[0]);
  }

  lemma CleanupPhase(fs: Files, data: Data)
    requires Secured(fs, data) && Promoted(fs)
    ensures var ops := RemoveSet(Recovery);
            Good(fs, ops, data) && Secured(ApplyAll(fs, ops), data) && Promoted(ApplyAll(fs, ops))
  {
    var ops := RemoveSet(Recovery);
    RemoveSetApplied(fs, Recovery);
    assert Avoids(ops, File(Manifest)) && Avoids(ops, File(Backup));
    SecuredAlong(fs, ops, data);
  }

  lemma ClearApplied(fs: Files)
    ensures ApplyAll(fs, Clear()) == fs - {File(Manifest)} - {File(ManifestTmp)} && AllEnabled(fs, Clear())
  {
    var ops := Clear();
    assert ops[1..] == [ops[1]] && [ops[1]][1..] == [];
    RemovesEnabled(fs, ops);
    assert ApplyAll(Apply(fs, ops[0]), [ops[1]]) == Apply(Apply(fs, ops[0]), ops[1]);
  }

  lemma ClearAlong(fs: Files, data: Data)
    requires Safe(fs, data) && Safe(fs - {File(Manifest)}, data) && Safe(fs - {File(Manifest)} - {File(ManifestTmp)}, data)
    ensures Good(fs, Clear(), data)
  {
    var ops := Clear();
    ClearApplied(fs);
    hide Safe;
    assert ops[1..] == [ops[1]] && [ops[1]][1..] == [];
    assert SafeAlong(Apply(fs, ops[0]), [ops[1]], data);
  }

  lemma ClearPhase(fs: Files, data: Data)
    requires Secured(fs, data) && Promoted(fs)
    ensures Good(fs, Clear(), data)
    ensures var gs := ApplyAll(fs, Clear()); Migrated(gs, data) && File(Manifest) !in gs && Promoted(gs)
  {
    ClearApplied(fs);
    ClearAlong(fs, data);
  }

  // ------------------------------------------------------------- the attempt

  function Rest(data: Data, k: nat): seq<Phase>
    requires k <= 14
  {
    MigratePhases(data)[k..]
  }

  lemma NextPhase(data: Data, k: nat)
    requires k < 14
    ensures Rest(data, k) != [] && Rest(data, k)[0] == MigratePhases(data)[k] && Rest(data, k)[1..] == Rest(data, k + 1)
  {
  }

  /** The steps left from phase `k` on are safe and finish the migration. */
  ghost predicate Finishes(fs: Files, data: Data, k: nat)
    requires k <= 14
  {
    && Good(fs, Steps(fs, Rest(data, k)), data)
    && var gs := ApplyAll(fs, Steps(fs, Rest(data, k)));
       Migrated(gs, data) && File(Manifest) !in gs && Promoted(gs)
  }

  lemma PhaseFinishes(fs: Files, data: Data, k: nat)
    requires k < 14 && Good(fs, MigratePhases(data)[k].Ops(fs), data)
    requires Finishes(ApplyAll(fs, MigratePhases(data)[k].Ops(fs)), data, k + 1)
    ensures Finishes(fs, data, k)
  {
    hide MigratePhases, Good, ApplyAll, Migrated, Promoted, Steps;
    NextPhase(data, k);
    GoodSteps(fs, Rest(data, k), data);
  }

  lemma Finished(fs: Files, data: Data)
    requires Migrated(fs, data) && File(Manifest) !in fs && Promoted(fs)
    ensures Finishes(fs, data, 14)
  {
    assert Rest(data, 14) == [];
  }

  lemma FromPromoted(fs: Files, data: Data)
    requires Secured(fs, data) && Promoted(fs)
    ensures Finishes(fs, data, 10)
  {
    hide Good, ApplyAll, Migrated, Finishes, Secured, BackedUp, Safe;
    SecuredMeans(fs, data);
    PersistSecured(fs, NewPromoted, data);
    var g := ApplyAll(fs, Persist(NewPromoted));
    SecuredMeans(g, data);
    PersistSecured(g, ParentSynced, data);
    var h := ApplyAll(g, Persist(ParentSynced));
    StillPromoted(fs, g);
    StillPromoted(g, h);
    CleanupPhase(h, data);
    var i := ApplyAll(h, RemoveSet(Recovery));
    ClearPhase(i, data);
    Finished(ApplyAll(i, Clear()), data);
    PhaseFinishes(i, data, 13);
    PhaseFinishes(h, data, 12);
    PhaseFinishes(g, data, 11);
    PhaseFinishes(fs, data, 10);
  }

  lemma SecuredMeans(fs: Files, data: Data)
    requires Secured(fs, data)
    ensures Safe(fs, data) && BackedUp(fs, data) && File(Manifest) in fs
  {
  }

  lemma StillPromoted(fs: Files, gs: Files)
    requires Promoted(fs) && forall f :: f != File(Manifest) && f != File(ManifestTmp) ==> SameAt(fs, gs, f)
    ensures Promoted(gs)
  {
    assert SameAt(fs, gs, File(Main));
    forall s ensures Side(Main, s) !in gs { assert SameAt(fs, gs, Side(Main, s)); }
  }

  lemma StillNoMain(fs: Files, gs: Files)
    requires NoMain(fs) && forall f :: f != File(Manifest) && f != File(ManifestTmp) ==> SameAt(fs, gs, f)
    ensures NoMain(gs)
  {
    assert SameAt(fs, gs, File(Main));
    forall s ensures Side(Main, s) !in gs { assert SameAt(fs, gs, Side(Main, s)); }
  }

  lemma FromQuarantined(fs: Files, data: Data)
    requires Secured(fs, data) && NoMain(fs)
    ensures Finishes(fs, data, 6)
  {
    hide Good, ApplyAll, Migrated, Finishes, Secured, BackedUp, Safe, NoMain, Promoted, CreateCandidate;
    SecuredMeans(fs, data);
    PersistSecured(fs, OldQuarantined, data);
    var g := ApplyAll(fs, Persist(OldQuarantined));
    StillNoMain(fs, g);
    CandidatePhase(g, data);
    var h := ApplyAll(g, CreateCandidate());
    SecuredMeans(h, data);
    PersistSecured(h, NewValidated, data);
    var i := ApplyAll(h, Persist(NewValidated));
    StillNoMain(h, i);
    assert SameAt(h, i, File(Candidate));
    PromotePhase(i, data);
    FromPromoted(ApplyAll(i, [Move(File(Candidate), File(Main))]), data);
    PhaseFinishes(i, data, 9);
    PhaseFinishes(h, data, 8);
    PhaseFinishes(g, data, 7);
    PhaseFinishes(fs, data, 6);
  }

  lemma FromBackedUp(fs: Files, data: Data)
    requires Safe(fs, data) && BackedUp(fs, data) && File(Manifest) in fs && File(Main) in fs
    ensures Finishes(fs, data, 2)
  {
    hide Good, ApplyAll, Migrated, Finishes, Secured, BackedUp, Safe, NoMain, Promoted, Checkpoint, Quarantine;
    PersistSecured(fs, BackupCreated, data);
    var g := ApplyAll(fs, Persist(BackupCreated));
    assert SameAt(fs, g, File(Main));
    CheckpointPhase(g, data);
    var h := ApplyAll(g, Checkpoint(g, data));
    SecuredMeans(h, data);
    PersistSecured(h, OldCheckpointed, data);
    var i := ApplyAll(h, Persist(OldCheckpointed));
    QuarantinePhase(i, data);
    FromQuarantined(ApplyAll(i, Quarantine(i)), data);
    PhaseFinishes(i, data, 5);
    PhaseFinishes(h, data, 4);
    PhaseFinishes(g, data, 3);
    PhaseFinishes(fs, data, 2);
  }

  /** A migration of the legacy database in place is safe throughout and completes. */
  lemma MigrationSafe(fs: Files, data: Data)
    requires LegacyInPlace(fs, data) && File(Manifest) !in fs
    ensures Finishes(fs, data, 0)
  {
    hide Good, ApplyAll, Migrated, Finishes, BackedUp, Safe, Promoted, CreateBackup, LegacyInPlace;
    PersistPending(fs, data);
    var g := ApplyAll(fs, Persist(BackupPending));
    BackupPhase(g, data);
    FromBackedUp(ApplyAll(g, CreateBackup(data)), data);
    PhaseFinishes(g, data, 1);
    PhaseFinishes(fs, data, 0);
  }

  // ---------------------------------------------------------------- recovery

  /** No manifest, and a complete database of one generation in place. */
  predicate Settled(fs: Files, data: Data) { File(Manifest) !in fs && Safe(fs, data) }

  function DiscardFront(): seq<Op> {
    RemoveSet(Candidate) + RemoveSet(Recovery) + RemoveSet(Restore) + [Remove(File(Backup))]
  }

  lemma DiscardAvoids(f: FileName)
    requires f == File(Manifest) || f == File(Main) || (f.Side? && f.of == Main)
    ensures Avoids(DiscardFront(), f)
  {
  }

  lemma DiscardSafe(fs: Files, data: Data)
    requires LegacyInPlace(fs, data) && File(Manifest) in fs && fs[File(Manifest)] == Marker(BackupPending)
    ensures Good(fs, DiscardOps(), data) && Settled(ApplyAll(fs, DiscardOps()), data)
    ensures LegacyInPlace(ApplyAll(fs, DiscardOps()), data)
  {
    var ops := DiscardFront();
    RemovesEnabled(fs, ops);
    assert DiscardOps() == ops + Clear();
    hide DiscardFront, DiscardOps, Clear, Avoids;
    DiscardAvoids(File(Manifest));
    DiscardAvoids(File(Main));
    forall s ensures Avoids(ops, Side(Main, s)) { DiscardAvoids(Side(Main, s)); }
    InPlaceAlong(fs, ops, data);
    EndSafe(fs, ops, data);
    var g := ApplyAll(fs, ops);
    hide ApplyAll, SafeAlong, AllEnabled;
    ClearInPlace(g, data);
    GoodJoin(fs, ops, Clear(), data);
  }

  lemma ClearInPlace(fs: Files, data: Data)
    requires LegacyInPlace(fs, data) && Safe(fs, data)
    ensures Good(fs, Clear(), data) && Settled(ApplyAll(fs, Clear()), data) && LegacyInPlace(ApplyAll(fs, Clear()), data)
  {
    var g := fs - {File(Manifest)};
    var h := g - {File(ManifestTmp)};
    SameMainReads(fs, g, data);
    SameMainReads(fs, h, data);
    ClearApplied(fs);
    ClearAlong(fs, data);
  }

  function RemoveAll(): seq<Op> { RemoveSet(Main) + RemoveSet(Candidate) + RemoveSet(Recovery) + RemoveSet(Restore) }

  function CopyBack(backup: Content): seq<Op> {
    [Create(File(Restore)), Write(File(Restore), Partial), Write(File(Restore), backup), Move(File(Restore), File(Main))]
  }

  lemma RemoveMainApplied(fs: Files)
    ensures NoMain(ApplyAll(fs, RemoveSet(Main)))
  {
    RemoveSetApplied(fs, Main);
    hide ApplyAll, RemoveSet;
    forall s ensures Side(Main, s) !in ApplyAll(fs, RemoveSet(Main)) {
      assert s == Wal || s == Shm || s == Journal;
    }
  }

  lemma SetAvoidsMain(b: Base)
    requires b != Main
    ensures AvoidsMain(RemoveSet(b))
  {
  }

  lemma RemoveAllApplied(fs: Files)
    ensures AllEnabled(fs, RemoveAll()) && NoMain(ApplyAll(fs, RemoveAll())) && File(Restore) !in ApplyAll(fs, RemoveAll())
  {
    RemovesEnabled(fs, RemoveAll());
    var a, b, c, d := RemoveSet(Main), RemoveSet(Candidate), RemoveSet(Recovery), RemoveSet(Restore);
    assert RemoveAll() == a + b + c + d;
    RemoveMainApplied(fs);
    hide RemoveAll, RemoveSet, ApplyAll, NoMain, AvoidsMain;
    var g := ApplyAll(fs, a);
    SetAvoidsMain(Candidate);
    NoMainKept(g, b);
    var h := ApplyAll(g, b);
    SetAvoidsMain(Recovery);
    NoMainKept(h, c);
    var i := ApplyAll(h, c);
    SetAvoidsMain(Restore);
    NoMainKept(i, d);
    RemoveSetApplied(i, Restore);
    Join(fs, a, b);
    Join(fs, a + b, c);
    Join(fs, a + b + c, d);
  }

  lemma RemoveAllAvoids(f: FileName)
    requires f == File(Manifest) || f == File(Backup)
    ensures Avoids(RemoveAll(), f)
  {
  }

  lemma CopyBackApplied(fs: Files, backup: Content)
    requires NoMain(fs) && File(Restore) !in fs
    ensures AllEnabled(fs, CopyBack(backup))
    ensures var gs := ApplyAll(fs, CopyBack(backup));
            File(Main) in gs && gs[File(Main)] == backup && forall s :: Side(Main, s) !in gs
  {
    Four(fs, CopyBack(backup));
  }

  lemma RestoreSafe(fs: Files, data: Data)
    requires Secured(fs, data)
    ensures Good(fs, RestoreOps(fs[File(Backup)]), data) && Settled(ApplyAll(fs, RestoreOps(fs[File(Backup)])), data)
    ensures LegacyInPlace(ApplyAll(fs, RestoreOps(fs[File(Backup)])), data)
  {
    var backup := fs[File(Backup)];
    var a, b := RemoveAll(), CopyBack(backup);
    assert RestoreOps(backup) == a + b + Clear();
    assert Avoids(b, File(Manifest)) && Avoids(b, File(Backup));
    RemoveAllAvoids(File(Manifest));
    RemoveAllAvoids(File(Backup));
    hide RemoveAll, CopyBack, Clear, RestoreOps, Avoids;
    RemoveAllApplied(fs);
    SecuredAlong(fs, a, data);
    var g := ApplyAll(fs, a);
    CopyBackApplied(g, backup);
    SecuredAlong(g, b, data);
    var h := ApplyAll(g, b);
    hide ApplyAll, SafeAlong, AllEnabled;
    GoodJoin(fs, a, b, data);
    ClearInPlace(h, data);
    GoodJoin(fs, a + b, Clear(), data);
  }

  /** Recovery never has to refuse, is itself safe to cut short, and settles the files,
      with the legacy database back in place if there was anything to undo. */
  lemma RecoverSafe(fs: Files, data: Data)
    requires Safe(fs, data)
    ensures Recover(fs).Some? && Good(fs, Recover(fs).value, data) && Settled(ApplyAll(fs, Recover(fs).value), data)
    ensures File(Manifest) in fs ==> LegacyInPlace(ApplyAll(fs, Recover(fs).value), data)
  {
    hide DiscardOps, RestoreOps, LegacyInPlace, Migrated;
    if File(Manifest) in fs {
      if fs[File(Manifest)].stage.BackupPending? {
        assert File(Main) in fs by { MainThere(fs, data); }
        DiscardSafe(fs, data);
      } else {
        RestoreSafe(fs, data);
      }
    }
  }

  lemma MainThere(fs: Files, data: Data)
    requires LegacyInPlace(fs, data)
    ensures File(Main) in fs
  {
  }

  // ---------------------------------------------------------------- theorems

  /** A database of the second generation is in place and nothing is to be recovered. */
  predicate InUse(fs: Files) {
    File(Manifest) !in fs && File(Main) in fs && fs[File(Main)].Database? && fs[File(Main)].generation == New
  }

  /** From any safe state an attempt is not refused, may be cut short anywhere, and if
      it is not, leaves the new database in place, the legacy data in the backup and
      no manifest. A new database that was not in use before is empty. */
  lemma AttemptSafe(fs: Files, data: Data)
    requires Safe(fs, data)
    ensures Attempt(fs).Some? && Good(fs, Attempt(fs).value, data)
    ensures var gs := ApplyAll(fs, Attempt(fs).value); Migrated(gs, data) && File(Manifest) !in gs && (InUse(fs) || Promoted(gs))
  {
    RecoverSafe(fs, data);
    var ops := Recover(fs).value;
    var g := ApplyAll(fs, ops);
    OpenSafe(g, data);
    hide ApplyAll, Good, Open, Recover;
    GoodJoin(fs, ops, Open(g).value, data);
  }

  lemma OpenSafe(fs: Files, data: Data)
    requires Settled(fs, data)
    ensures Open(fs).Some? && Good(fs, Open(fs).value, data)
    ensures var gs := ApplyAll(fs, Open(fs).value); Migrated(gs, data) && File(Manifest) !in gs && (InUse(fs) || Promoted(gs))
  {
    if LegacyInPlace(fs, data) {
      MigrationSafe(fs, data);
      assert MigratePhases(data)[0..] == MigratePhases(data);
      hide MigratePhases, Steps, ApplyAll;
    } else {
      assert Open(fs) == Some([]);
    }
  }

  /** What may happen between two moments: an attempt that stops after some steps, or
      use of the new database, which leaves a log of its own. */
  datatype Event = Cut(steps: nat) | Used(data: Data)

  function Next(fs: Files, event: Event): Files {
    match event
    case Cut(steps) => if Attempt(fs).Some? then Exec(fs, steps, Attempt(fs).value).0 else fs
    case Used(d) => if InUse(fs) then fs[Side(Main, Wal) := Log(New, d)] else fs
  }

  function After(fs: Files, events: seq<Event>): Files
    decreases |events|
  {
    if events == [] then fs else After(Next(fs, events[0]), events[1..])
  }

  lemma NextSafe(fs: Files, event: Event, data: Data)
    requires Safe(fs, data)
    ensures Safe(Next(fs, event), data)
  {
    match event
    case Cut(steps) =>
      AttemptSafe(fs, data);
      hide Attempt, Safe, Exec;
      SafeWherever(fs, steps, Attempt(fs).value, data);
    case Used(d) =>
  }

  lemma {:induction false} AfterSafe(fs: Files, events: seq<Event>, data: Data)
    requires Safe(fs, data)
    ensures Safe(After(fs, events), data)
    decreases |events|
  {
    hide Safe, Next;
    if events != [] {
      NextSafe(fs, events[0], data);
      AfterSafe(Next(fs, events[0]), events[1..], data);
    }
  }

  /** Opening a database in use leaves every file as it is, wherever it is cut short. */
  lemma OpeningKeeps(fs: Files, steps: nat)
    requires InUse(fs)
    ensures Attempt(fs).Some? && Exec(fs, steps, Attempt(fs).value) == (fs, steps)
    ensures Reading(Exec(fs, steps, Attempt(fs).value).0) == Reading(fs) && Reading(fs).Some?
  {
    assert Recover(fs) == Some([]) && Open(fs) == Some([]);
    assert Attempt(fs) == Some([] + []);
  }

  /** The data last put in, or what there was to begin with. */
  function Latest(start: Data, events: seq<Event>): Data {
    if events == [] then start
    else match events[|events| - 1]
      case Used(d) => d
      case Cut(_) => Latest(start, events[..|events| - 1])
  }

  lemma {:induction false} AfterLast(fs: Files, events: seq<Event>)
    requires events != []
    ensures After(fs, events) == Next(After(fs, events[..|events| - 1]), events[|events| - 1])
    decreases |events|
  {
    hide Next;
    if |events| > 1 {
      AfterLast(Next(fs, events[0]), events[1..]);
      assert events[1..][..|events| - 2] == events[..|events| - 1][1..];
    } else {
      assert events[..0] == [] && events[1..] == [];
    }
  }

  /** From the first use on, a reader sees what was last put in: no attempt to open the
      database, cut short or not, takes anything away or brings anything back. */
  lemma {:induction false} DataKept(fs: Files, events: seq<Event>)
    requires InUse(fs)
    ensures Reading(fs).Some?
    ensures InUse(After(fs, events)) && Reading(After(fs, events)) == Some(Latest(Reading(fs).value, events))
    decreases |events|
  {
    OpeningKeeps(fs, 0);
    if events != [] {
      var front, last := events[..|events| - 1], events[|events| - 1];
      DataKept(fs, front);
      AfterLast(fs, events);
      if last.Cut? { OpeningKeeps(After(fs, front), last.steps); }
    }
  }

  lemma {:induction false} AfterJoin(fs: Files, a: seq<Event>, b: seq<Event>)
    ensures After(fs, a + b) == After(After(fs, a), b)
    decreases |a|
  {
    hide Next;
    if a == [] {
      assert a + b == b;
    } else {
      assert (a + b)[1..] == a[1..] + b;
      AfterJoin(Next(fs, a[0]), a[1..], b);
    }
  }

  /** A migrated database keeps what is put into it, through any later crashes, and the
      legacy data stays in the backup. */
  lemma MigratedDataKept(fs: Files, data: Data, before: seq<Event>, after: seq<Event>)
    requires LegacyInPlace(fs, data) && File(Manifest) !in fs && InUse(After(fs, before))
    ensures Reading(After(fs, before)).Some?
    ensures var gs := After(fs, before + after);
            && InUse(gs) && Reading(gs) == Some(Latest(Reading(After(fs, before)).value, after)) && BackedUp(gs, data)
  {
    hide After, Latest;
    AfterJoin(fs, before, after);
    DataKept(After(fs, before), after);
    AfterSafe(fs, before + after, data);
  }

  /** Whatever happens to a legacy database, its data is readable in place or in the
      backup; main file and manifest are never both missing; without a manifest the
      main file is complete and has no log of the other generation; and the next
      attempt, if let run, completes the migration. */
  lemma CrashSafe(fs: Files, data: Data, events: seq<Event>)
    requires LegacyInPlace(fs, data) && File(Manifest) !in fs
    ensures var gs := After(fs, events);
            && (LegacyInPlace(gs, data) || BackedUp(gs, data))
            && (File(Main) in gs || File(Manifest) in gs)
            && (File(Manifest) !in gs ==> gs[File(Main)].Database? && SidesOf(gs, gs[File(Main)].generation))
            && Attempt(gs).Some? && AllEnabled(gs, Attempt(gs).value)
            && Migrated(ApplyAll(gs, Attempt(gs).value), data) && File(Manifest) !in ApplyAll(gs, Attempt(gs).value)
            && Reading(ApplyAll(gs, Attempt(gs).value)) == if InUse(gs) then Reading(gs) else Some(FRESH)
  {
    assert Safe(fs, data);
    AfterSafe(fs, events, data);
    var gs := After(fs, events);
    AttemptSafe(gs, data);
    assert Promoted(ApplyAll(gs, Attempt(gs).value)) ==> Reading(ApplyAll(gs, Attempt(gs).value)) == Some(FRESH);
    if InUse(gs) { OpenedInUse(gs); }
    hide After, Attempt, AllEnabled, SafeAlong, ApplyAll, Reading;
  }

  lemma OpenedInUse(fs: Files)
    requires InUse(fs)
    ensures Attempt(fs).Some? && ApplyAll(fs, Attempt(fs).value) == fs
  {
    assert Recover(fs) == Some([]) && Open(fs) == Some([]);
    assert Attempt(fs) == Some([] + []);
  }

  // ------------------------------------------------------------- first opening

  /** Nothing is there yet: no main file and no log that would belong to one, or a main file
      that has been created and not been filled. */
  predicate NothingYet(fs: Files) {
    if File(Main) in fs then fs[File(Main)] == Blank
    else Side(Main, Wal) !in fs && Side(Main, Shm) !in fs && Side(Main, Journal) !in fs
  }

  /** Opening without anything to recover: a database of either generation is opened, an
      empty one is made where there is nothing yet, and everything else is refused. */
  lemma OpeningExact(fs: Files)
    requires File(Manifest) !in fs
    ensures Attempt(fs).Some? <==> NothingYet(fs) || (File(Main) in fs && fs[File(Main)].Database?)
    ensures NothingYet(fs) ==> ApplyAll(fs, Attempt(fs).value) == fs[File(Main) := Database(New, FRESH)]
  {
    assert Recover(fs) == Some([]);
    if Attempt(fs).Some? { assert Attempt(fs).value == Open(fs).value; }
    if NothingYet(fs) {
      var make, fill := Create(File(Main)), Write(File(Main), Database(New, FRESH));
      assert [make, fill][1..] == [fill] && [fill][1..] == [];
      assert ApplyAll(fs, [fill]) == Apply(fs, fill);
      assert ApplyAll(fs, [make, fill]) == ApplyAll(Apply(fs, make), [fill]) == Apply(Apply(fs, make), fill);
    }
  }
}
