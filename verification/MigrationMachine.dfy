/** The migration as the program runs it: file steps one after another on a machine
    that may lose power, after which nothing more happens
    (crates/stateful-store/src/migration_v2.rs). */
module MigrationMachine {
  import opened Migration
  import MigrationProofs

  lemma ExecDead(fs: Files, ops: seq<Op>)
    ensures Exec(fs, 0, ops) == (fs, 0)
  {
  }

  lemma {:induction false} ExecJoin(fs: Files, n: nat, a: seq<Op>, b: seq<Op>)
    ensures Exec(fs, n, a + b) == Exec(Exec(fs, n, a).0, Exec(fs, n, a).1, b)
    decreases |a|
  {
    hide Apply;
    if a == [] {
      assert a + b == b;
    } else if n > 0 {
      assert (a + b)[1..] == a[1..] + b;
      ExecJoin(Apply(fs, a[0]), n - 1, a[1..], b);
    }
  }

  /** While power lasts, everything asked for has happened. */
  lemma {:induction false} ExecAlive(fs: Files, n: nat, ops: seq<Op>)
    requires Exec(fs, n, ops).1 > 0
    ensures Exec(fs, n, ops).0 == ApplyAll(fs, ops)
    decreases |ops|
  {
    hide Apply;
    if ops != [] { ExecAlive(Apply(fs, ops[0]), n - 1, ops[1..]); }
  }

  lemma ExecPhase(fs: Files, n: nat, phases: seq<Phase>)
    requires phases != []
    ensures var (gs, m) := Exec(fs, n, phases[0].Ops(fs));
            Exec(fs, n, Steps(fs, phases)) == Exec(gs, m, Steps(gs, phases[1..]))
  {
    hide Exec, ApplyAll;
    var ops := phases[0].Ops(fs);
    var (gs, m) := Exec(fs, n, ops);
    ExecJoin(fs, n, ops, Steps(ApplyAll(fs, ops), phases[1..]));
    if m > 0 {
      ExecAlive(fs, n, ops);
    } else {
      ExecDead(gs, Steps(ApplyAll(fs, ops), phases[1..]));
      ExecDead(gs, Steps(gs, phases[1..]));
    }
  }

  /** What the machine would end with if it went through the phases from `k` on. */
  function Goal(fs: Files, n: nat, data: Data, k: nat): (Files, nat)
    requires k <= 14
  {
    Exec(fs, n, Steps(fs, MigratePhases(data)[k..]))
  }

  lemma GoalNext(fs: Files, n: nat, data: Data, k: nat)
    requires k < 14
    ensures var (gs, m) := Exec(fs, n, MigratePhases(data)[k].Ops(fs)); Goal(fs, n, data, k) == Goal(gs, m, data, k + 1)
  {
    hide MigratePhases, Steps, Exec;
    var phases := MigratePhases(data)[k..];
    assert phases[0] == MigratePhases(data)[k] && phases[1..] == MigratePhases(data)[k + 1..];
    ExecPhase(fs, n, phases);
  }

  lemma GoalReached(fs: Files, n: nat, data: Data)
    ensures Goal(fs, n, data, 14) == (fs, n)
  {
    assert MigratePhases(data)[14..] == [];
  }

  class Machine {
    var files: Files
    var steps: nat

    constructor (fs: Files, n: nat)
      ensures files == fs && steps == n
    {
      files, steps := fs, n;
    }

    /** One step, unless the power is gone. */
    method Do(op: Op)
      modifies this
      ensures (files, steps) == Exec(old(files), old(steps), [op])
    {
      assert [op][1..] == [];
      if steps > 0 {
        files, steps := Apply(files, op), steps - 1;
      }
    }

    method DoAll(ops: seq<Op>)
      modifies this
      ensures (files, steps) == Exec(old(files), old(steps), ops)
    {
      hide Exec;
      ghost var fs, n := files, steps;
      assert ops[..0] == [];
      assert Exec(fs, n, []) == (fs, n) by { ExecNothing(fs, n); }
      for i := 0 to |ops|
        invariant (files, steps) == Exec(fs, n, ops[..i])
      {
        ExecJoin(fs, n, ops[..i], [ops[i]]);
        assert ops[..i] + [ops[i]] == ops[..i + 1];
        Do(ops[i]);
      }
      assert ops[..|ops|] == ops;
    }

    method RemoveDatabaseSet(b: Base)
      modifies this
      ensures (files, steps) == Exec(old(files), old(steps), RemoveSet(b))
    {
      hide Exec;
      ghost var fs, n := files, steps;
      var suffixes := [Wal, Shm, Journal];
      Do(Remove(File(b)));
      assert RemoveSet(b)[..1] == [Remove(File(b))];
      for i := 0 to 3
        invariant (files, steps) == Exec(fs, n, RemoveSet(b)[..i + 1])
      {
        ExecJoin(fs, n, RemoveSet(b)[..i + 1], [Remove(Side(b, suffixes[i]))]);
        assert RemoveSet(b)[..i + 1] + [Remove(Side(b, suffixes[i]))] == RemoveSet(b)[..i + 2];
        Do(Remove(Side(b, suffixes[i])));
      }
      assert RemoveSet(b)[..4] == RemoveSet(b);
    }

    /** Wherever the power fails the manifest is whole, and if it does not the manifest
        names the new stage. */
    method PersistManifest(stage: Stage)
      modifies this
      ensures (files, steps) == Exec(old(files), old(steps), Persist(stage))
      ensures ManifestWhole(old(files), files, stage) && (steps > 0 ==> Marked(files, stage))
    {
      hide Exec, ManifestWhole;
      PersistCut(files, steps, stage);
      DoAll([Remove(File(ManifestTmp)), Create(File(ManifestTmp)), Write(File(ManifestTmp), Partial),
             Write(File(ManifestTmp), Marker(stage)), Move(File(ManifestTmp), File(Manifest))]);
    }

    method ClearManifest()
      modifies this
      ensures (files, steps) == Exec(old(files), old(steps), Clear())
    {
      DoAll([Remove(File(Manifest)), Remove(File(ManifestTmp))]);
    }

    method MoveFileIfExists(source: FileName, target: FileName)
      modifies this
      ensures (files, steps) == Exec(old(files), old(steps), MoveIfExists(old(files), source, target))
    {
      if source in files {
        DoAll([Remove(target), Move(source, target)]);
      }
    }

    /** The main file and its logs are moved aside, whichever there are. */
    method QuarantineOldSet()
      modifies this
      ensures (files, steps) == Exec(old(files), old(steps), Quarantine(old(files)))
    {
      hide Exec, MoveIfExists, Quarantine;
      ghost var fs, n := files, steps;
      MoveFileIfExists(File(Main), File(Recovery));
      ghost var a := MoveIfExists(fs, File(Main), File(Recovery));
      MoveAvoids(fs, File(Main), File(Recovery));
      SameMove(fs, n, a, Side(Main, Wal), Side(Recovery, Wal));
      MoveFileIfExists(Side(Main, Wal), Side(Recovery, Wal));
      ghost var b := a + MoveIfExists(fs, Side(Main, Wal), Side(Recovery, Wal));
      MoveAvoids(fs, Side(Main, Wal), Side(Recovery, Wal));
      AvoidsBoth(a, MoveIfExists(fs, Side(Main, Wal), Side(Recovery, Wal)), Side(Main, Shm));
      AvoidsBoth(a, MoveIfExists(fs, Side(Main, Wal), Side(Recovery, Wal)), Side(Main, Journal));
      SameMove(fs, n, b, Side(Main, Shm), Side(Recovery, Shm));
      MoveFileIfExists(Side(Main, Shm), Side(Recovery, Shm));
      ghost var c := b + MoveIfExists(fs, Side(Main, Shm), Side(Recovery, Shm));
      MoveAvoids(fs, Side(Main, Shm), Side(Recovery, Shm));
      AvoidsBoth(b, MoveIfExists(fs, Side(Main, Shm), Side(Recovery, Shm)), Side(Main, Journal));
      SameMove(fs, n, c, Side(Main, Journal), Side(Recovery, Journal));
      MoveFileIfExists(Side(Main, Journal), Side(Recovery, Journal));
      assert Quarantine(fs) == c + MoveIfExists(fs, Side(Main, Journal), Side(Recovery, Journal)) by { QuarantineList(fs); }
    }

    method MigrateLegacy()
      requires Reading(files).Some?
      modifies this
      ensures (files, steps) == Exec(old(files), old(steps), Steps(old(files), MigratePhases(Reading(old(files)).value)))
    {
      hide Exec, Steps, Goal, Checkpoint, Quarantine, Persist, Reading, ManifestWhole, Marked;
      var data := Reading(files).value;
      ghost var goal := Goal(files, steps, data, 0);
      assert goal == Exec(files, steps, Steps(files, MigratePhases(data))) by { GoalStart(files, steps, data); }
      GoalNext(files, steps, data, 0);
      PersistManifest(BackupPending);
      GoalNext(files, steps, data, 1);
      DoAll(CreateBackup(data));
      GoalNext(files, steps, data, 2);
      PersistManifest(BackupCreated);
      GoalNext(files, steps, data, 3);
      DoAll(Checkpoint(files, data));
      GoalNext(files, steps, data, 4);
      PersistManifest(OldCheckpointed);
      GoalNext(files, steps, data, 5);
      QuarantineOldSet();
      GoalNext(files, steps, data, 6);
      PersistManifest(OldQuarantined);
      GoalNext(files, steps, data, 7);
      DoAll(CreateCandidate());
      GoalNext(files, steps, data, 8);
      PersistManifest(NewValidated);
      GoalNext(files, steps, data, 9);
      Do(Move(File(Candidate), File(Main)));
      GoalNext(files, steps, data, 10);
      PersistManifest(NewPromoted);
      GoalNext(files, steps, data, 11);
      PersistManifest(ParentSynced);
      GoalNext(files, steps, data, 12);
      RemoveDatabaseSet(Recovery);
      GoalNext(files, steps, data, 13);
      ClearManifest();
      GoalReached(files, steps, data);
    }

    /** Puts a copy of the backup back in place of the main file. */
    method RestoreBackupSet()
      requires File(Backup) in files
      modifies this
      ensures (files, steps) == Exec(old(files), old(steps), RestoreOps(old(files)[File(Backup)]))
    {
      hide Exec, RemoveSet, Clear;
      ghost var fs, n := files, steps;
      var backup := files[File(Backup)];
      var copy := [Create(File(Restore)), Write(File(Restore), Partial), Write(File(Restore), backup), Move(File(Restore), File(Main))];
      RemoveDatabaseSet(Main);
      ghost var a := RemoveSet(Main);
      ExecJoin(fs, n, a, RemoveSet(Candidate));
      RemoveDatabaseSet(Candidate);
      a := a + RemoveSet(Candidate);
      ExecJoin(fs, n, a, RemoveSet(Recovery));
      RemoveDatabaseSet(Recovery);
      a := a + RemoveSet(Recovery);
      ExecJoin(fs, n, a, RemoveSet(Restore));
      RemoveDatabaseSet(Restore);
      a := a + RemoveSet(Restore);
      ExecJoin(fs, n, a, copy);
      DoAll(copy);
      a := a + copy;
      ExecJoin(fs, n, a, Clear());
      ClearManifest();
    }

    method DiscardAttempt()
      modifies this
      ensures (files, steps) == Exec(old(files), old(steps), DiscardOps())
    {
      hide Exec, RemoveSet, Clear;
      ghost var fs, n := files, steps;
      RemoveDatabaseSet(Candidate);
      ghost var a := RemoveSet(Candidate);
      ExecJoin(fs, n, a, RemoveSet(Recovery));
      RemoveDatabaseSet(Recovery);
      a := a + RemoveSet(Recovery);
      ExecJoin(fs, n, a, RemoveSet(Restore));
      RemoveDatabaseSet(Restore);
      a := a + RemoveSet(Restore);
      ExecJoin(fs, n, a, [Remove(File(Backup))]);
      Do(Remove(File(Backup)));
      a := a + [Remove(File(Backup))];
      ExecJoin(fs, n, a, Clear());
      ClearManifest();
    }

    /** Undoes an interrupted attempt according to the stage its manifest records. */
    method RecoverInterruptedMigration() returns (ok: bool)
      modifies this
      ensures ok == Recover(old(files)).Some?
      ensures (files, steps) == if ok then Exec(old(files), old(steps), Recover(old(files)).value) else (old(files), old(steps))
    {
      hide RestoreOps, DiscardOps;
      ExecNothing(files, steps);
      if File(Manifest) !in files { return true; }
      if !files[File(Manifest)].Marker? { return false; }
      if files[File(Manifest)].stage.BackupPending? {
        if File(Main) !in files { return false; }
        DiscardAttempt();
        return true;
      }
      if File(Backup) !in files { return false; }
      RestoreBackupSet();
      return true;
    }

    /** Opens the main file, migrating or initialising it as need be. A database of the
        second generation is opened as it is. */
    method OpenMain() returns (ok: bool)
      modifies this
      ensures ok == Open(old(files)).Some?
      ensures File(Main) in old(files) && old(files)[File(Main)].Database? && old(files)[File(Main)].generation == New ==>
                ok && files == old(files)
      ensures (files, steps) == if ok then Exec(old(files), old(steps), Open(old(files)).value) else (old(files), old(steps))
    {
      hide Exec, Steps, MigratePhases;
      ExecNothing(files, steps);
      if File(Main) !in files {
        if Side(Main, Wal) in files || Side(Main, Shm) in files || Side(Main, Journal) in files { return false; }
        DoAll([Create(File(Main)), Write(File(Main), Database(New, FRESH))]);
        return true;
      }
      match files[File(Main)]
      case Database(New, _) => return true;
      case Database(Old, _) =>
        MigrateLegacy();
        return true;
      case Blank =>
        Do(Write(File(Main), Database(New, FRESH)));
        return true;
      case _ => return false;
    }

    /** One attempt to open the database. Wherever it is cut short the legacy data is
        safe; if the power lasts, the migration is complete; and a database in use is
        left as it is. */
    method OpenLocked(ghost data: Data) returns (ok: bool)
      modifies this
      ensures Attempt(old(files)).Some? ==> (files, steps) == Exec(old(files), old(steps), Attempt(old(files)).value)
      ensures Safe(old(files), data) ==> Safe(files, data)
      ensures Safe(old(files), data) && steps > 0 ==> ok && Migrated(files, data) && File(Manifest) !in files
      ensures MigrationProofs.InUse(old(files)) ==> ok && files == old(files) && Reading(files) == Reading(old(files))
    {
      hide Exec, Open, Recover, Migrated, Safe;
      ghost var fs, n := files, steps;
      if MigrationProofs.InUse(fs) { NothingToRecover(fs, n); }
      ok := RecoverInterruptedMigration();
      if ok {
        AttemptExec(fs, n);
        ok := OpenMain();
      }
      if Safe(fs, data) { AttemptLands(fs, n, data); }
    }
  }

  lemma NothingToRecover(fs: Files, n: nat)
    requires File(Manifest) !in fs
    ensures Recover(fs).Some? && Exec(fs, n, Recover(fs).value) == (fs, n)
  {
  }

  lemma AttemptExec(fs: Files, n: nat)
    requires Recover(fs).Some?
    ensures var (gs, m) := Exec(fs, n, Recover(fs).value);
            Attempt(fs).Some? ==>
              && (m > 0 ==> Open(gs).Some?)
              && Exec(fs, n, Attempt(fs).value) == if Open(gs).Some? then Exec(gs, m, Open(gs).value) else (gs, m)
  {
    hide Exec, Open, Recover;
    var ops := Recover(fs).value;
    var (gs, m) := Exec(fs, n, ops);
    if Attempt(fs).Some? {
      var open := Open(ApplyAll(fs, ops)).value;
      ExecJoin(fs, n, ops, open);
      if m > 0 {
        ExecAlive(fs, n, ops);
      } else {
        ExecDead(gs, open);
        if Open(gs).Some? { ExecDead(gs, Open(gs).value); }
      }
    }
  }

  lemma AttemptLands(fs: Files, n: nat, data: Data)
    requires Safe(fs, data)
    ensures Recover(fs).Some? && Attempt(fs).Some? && Safe(Exec(fs, n, Attempt(fs).value).0, data)
    ensures Exec(fs, n, Attempt(fs).value).1 > 0 ==>
              var gs := Exec(fs, n, Attempt(fs).value).0; Migrated(gs, data) && File(Manifest) !in gs
    ensures Exec(fs, n, Recover(fs).value).1 == 0 ==> Exec(fs, n, Attempt(fs).value).1 == 0
  {
    MigrationProofs.AttemptSafe(fs, data);
    assert Recover(fs).Some?;
    hide Exec, Attempt, Migrated, Safe, Recover;
    MigrationProofs.SafeWherever(fs, n, Attempt(fs).value, data);
    if Exec(fs, n, Attempt(fs).value).1 > 0 { ExecAlive(fs, n, Attempt(fs).value); }
    if Exec(fs, n, Recover(fs).value).1 == 0 { AttemptDead(fs, n); }
  }

  lemma AttemptDead(fs: Files, n: nat)
    requires Attempt(fs).Some? && Recover(fs).Some? && Exec(fs, n, Recover(fs).value).1 == 0
    ensures Exec(fs, n, Attempt(fs).value).1 == 0
  {
    hide Exec, Recover, Open;
    var ops := Recover(fs).value;
    ExecJoin(fs, n, ops, Open(ApplyAll(fs, ops)).value);
    ExecDead(Exec(fs, n, ops).0, Open(ApplyAll(fs, ops)).value);
  }

  /** Steps cut short are some of the first of them. */
  lemma {:induction false} ExecPrefix(fs: Files, n: nat, ops: seq<Op>)
    ensures Exec(fs, n, ops).0 == ApplyAll(fs, if n < |ops| then ops[..n] else ops)
    decreases |ops|
  {
    hide Apply;
    if ops != [] && n > 0 {
      ExecPrefix(Apply(fs, ops[0]), n - 1, ops[1..]);
      assert n < |ops| ==> ops[..n][1..] == ops[1..][..n - 1];
    }
  }

  predicate Marked(fs: Files, stage: Stage) { File(Manifest) in fs && fs[File(Manifest)] == Marker(stage) }

  /** The manifest is the old one or names the stage, never anything in between, and no
      other file but the temporary one is touched. */
  ghost predicate ManifestWhole(fs: Files, gs: Files, stage: Stage) {
    && (MigrationProofs.SameAt(fs, gs, File(Manifest)) || Marked(gs, stage))
    && forall f :: f != File(Manifest) && f != File(ManifestTmp) ==> MigrationProofs.SameAt(fs, gs, f)
  }

  lemma PersistCut(fs: Files, n: nat, stage: Stage)
    ensures var (gs, m) := Exec(fs, n, Persist(stage));
            ManifestWhole(fs, gs, stage) && (m > 0 ==> Marked(gs, stage))
  {
    var ops := Persist(stage);
    ExecPrefix(fs, n, ops);
    MigrationProofs.PersistApplied(fs, stage);
    var (gs, m) := Exec(fs, n, ops);
    if m > 0 { ExecAlive(fs, n, ops); }
    hide Exec, ApplyAll;
    if n < |ops| {
      MigrationProofs.PersistFront(stage);
      assert MigrationProofs.Avoids(ops[..n], File(Manifest)) by { assert forall op :: op in ops[..n] ==> op in ops[..4]; }
      MigrationProofs.Untouched(fs, ops[..n], File(Manifest));
      forall f | f != File(Manifest) && f != File(ManifestTmp) ensures MigrationProofs.SameAt(fs, gs, f) {
        MigrationProofs.Untouched(fs, ops[..n], f);
      }
    }
  }

  lemma MoveAvoids(fs: Files, source: FileName, target: FileName)
    ensures forall f :: f != source && f != target ==> MigrationProofs.Avoids(MoveIfExists(fs, source, target), f)
  {
  }

  lemma AvoidsBoth(a: seq<Op>, b: seq<Op>, f: FileName)
    requires MigrationProofs.Avoids(a, f) && MigrationProofs.Avoids(b, f)
    ensures MigrationProofs.Avoids(a + b, f)
  {
  }

  lemma ExecNothing(fs: Files, n: nat)
    ensures Exec(fs, n, []) == (fs, n)
  {
  }

  lemma GoalStart(fs: Files, n: nat, data: Data)
    ensures Goal(fs, n, data, 0) == Exec(fs, n, Steps(fs, MigratePhases(data)))
  {
    assert MigratePhases(data)[0..] == MigratePhases(data);
  }

  lemma QuarantineList(fs: Files)
    ensures Quarantine(fs) == MoveIfExists(fs, File(Main), File(Recovery))
      + MoveIfExists(fs, Side(Main, Wal), Side(Recovery, Wal))
      + MoveIfExists(fs, Side(Main, Shm), Side(Recovery, Shm))
      + MoveIfExists(fs, Side(Main, Journal), Side(Recovery, Journal))
  {
    hide MoveIfExists;
  }

  /** The moves before this one concern other files, so it goes ahead as planned. */
  lemma SameMove(fs: Files, n: nat, ops: seq<Op>, source: FileName, target: FileName)
    requires MigrationProofs.Avoids(ops, source)
    ensures var (gs, m) := Exec(fs, n, ops);
            Exec(fs, n, ops + MoveIfExists(fs, source, target)) == Exec(gs, m, MoveIfExists(gs, source, target))
  {
    hide Exec;
    var (gs, m) := Exec(fs, n, ops);
    ExecJoin(fs, n, ops, MoveIfExists(fs, source, target));
    if m > 0 {
      ExecAlive(fs, n, ops);
      MigrationProofs.Untouched(fs, ops, source);
    } else {
      ExecDead(gs, MoveIfExists(fs, source, target));
      ExecDead(gs, MoveIfExists(gs, source, target));
    }
  }
}
