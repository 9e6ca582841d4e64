/** Evidence is never stale: the generation of a resource counts the changes of its
    recorded state (crates/stateful-store/src/store_v2.rs). */
module Generations {
  import opened Basics
  import opened Tables
  import opened Sweeps
  import opened ReadEvidence
  import opened Commands
  import opened Invariants
  import opened SweepProofs
  import opened EvidenceProofs
  import opened Safety
  import opened Runs
  import opened ExactlyOnce
  import opened Completions
  import opened StableReads

  /** A generation rises by one exactly when the recorded state changes, rows stay and
      keep their path, and a new row starts at one. */
  ghost predicate Counts(d: Database, e: Database) {
    && (forall r :: r in d.resources ==>
          && r in e.resources && e.resources[r].path == d.resources[r].path
          && e.resources[r].generation ==
             d.resources[r].generation + (if e.resources[r].state == d.resources[r].state then 0 else 1))
    && (forall r :: r in e.resources && r !in d.resources ==> e.resources[r].generation == 1)
  }

  lemma SameCounts(d: Database, e: Database)
    requires e.resources == d.resources
    ensures Counts(d, e)
  {
  }

  lemma SyncCounts(db: Database, workspace: Name, os: ObservationSet, e: Database)
    requires Filed(workspace, os) && e.resources == Sync(db, workspace, os).resources
    ensures Counts(db, e)
  {
    hide Sync;
    SyncMoves(db, workspace, os);
  }

  lemma StartReadCounts(db: Database, ctx: Context, cmd: Command)
    requires cmd.ReadStart? && StartRead(db, ctx, cmd).Accepted?
    ensures Counts(db, StartRead(db, ctx, cmd).db)
  {
    hide Canonical, Sync, Filed, Counts;
    CanonicalFiled(ctx.workspace, cmd.observations);
    SyncCounts(db, ctx.workspace, Canonical(ctx.workspace, cmd.observations).value, StartRead(db, ctx, cmd).db);
  }

  lemma VerdictProjection(db: Database, t: TaskKey, attempt: WriteAttempt, verdict: WriteStatus, actual: ObservationSet)
    ensures RecordVerdict(db, t, attempt, verdict, actual).resources ==
            if verdict.WriteCompleted? then Sync(db, t.workspace, actual).resources else db.resources
  {
    hide Sync, Hit;
  }

  lemma CompleteWriteCounts(db: Database, ctx: Context, cmd: Command)
    requires Inv(db) && Conserved(db) && cmd.WriteComplete? && CompleteWrite(db, ctx, cmd).Accepted?
    ensures Counts(db, CompleteWrite(db, ctx, cmd).db)
  {
    hide Inv, Conserved, Canonical, CompleteWrite, WriteVerdict, RecordVerdict, Sync, Filed, Counts;
    CompletionKnows(db, ctx, cmd);
    var attempt, actual := db.attempts[cmd.attempt], Canonical(ctx.workspace, cmd.post).value;
    var verdict := WriteVerdict(attempt, cmd, actual, Canonical(ctx.workspace, cmd.expected).value);
    VerdictProjection(db, ctx.Task(), attempt, verdict, actual);
    CanonicalFiled(ctx.workspace, cmd.post);
    if verdict.WriteCompleted? {
      SyncCounts(db, ctx.workspace, actual, CompleteWrite(db, ctx, cmd).db);
    } else {
      SameCounts(db, CompleteWrite(db, ctx, cmd).db);
    }
  }

  /** Only a started read and a completed write record states. */
  lemma OperateCounts(db: Database, ctx: Context, cmd: Command)
    requires Inv(db) && Conserved(db) && Operate(db, ctx, cmd).Accepted?
    ensures Counts(db, Operate(db, ctx, cmd).db)
  {
    hide Inv, Conserved, Counts, EndTask, StartRead, CompleteRead, PrepareWrite, ActivateLease, ReleaseLease, CompleteWrite;
    var e := Operate(db, ctx, cmd).db;
    match cmd
    case ReadStart(_, _, _) => StartReadCounts(db, ctx, cmd);
    case WriteComplete(_, _, _, _, _, _, _) => CompleteWriteCounts(db, ctx, cmd);
    case TaskStart(_, _, _, _) => SameCounts(db, e);
    case TaskHeartbeat(_, _) => SameCounts(db, e);
    case TaskEnd(_, _) => EndTaskReads(db, ctx, cmd); SameCounts(db, e);
    case ReadComplete(_, _, _, _, _, _, _) => CompleteReadReads(db, ctx, cmd); SameCounts(db, e);
    case WritePrepare(_, _, _, _, _, _) => PrepareWriteReads(db, ctx, cmd); SameCounts(db, e);
    case LeaseActivate(_, _, _, _) => ActivateLeaseReads(db, ctx, cmd); SameCounts(db, e);
    case LeaseRelease(_) => ReleaseLeaseReads(db, ctx, cmd); SameCounts(db, e);
  }

  lemma CountsAcross(c: Database, d: Database, e: Database, f: Database)
    requires Counts(d, e) && c.resources == d.resources && e.resources == f.resources
    ensures Counts(c, f)
  {
  }

  lemma StepCounts(db: Database, event: Event)
    requires Inv(db) && Conserved(db)
    ensures Counts(db, Step(db, event))
  {
    hide Inv, Conserved, Counts, Operate, Sweep, Maintain;
    SameCounts(db, db);
    match event
    case Maintenance(now) =>
      MaintainReads(db, now);
      SameCounts(db, Maintain(db, now));
    case Request(ctx, cmd) =>
      var swept := Sweep(db, ctx.observedAt);
      SweepReads(db, ctx.observedAt);
      SweepKeeps(db, ctx.observedAt);
      if Step(db, event) != db {
        OperateCounts(swept, ctx, cmd);
        CountsAcross(db, swept, Operate(swept, ctx, cmd).db, Step(db, event));
      }
  }

  /** At every step of every run a generation rises by one exactly when the recorded
      state changes, and a new row starts at one. */
  lemma GenerationsExact(run: seq<Event>, i: nat)
    requires i < |run|
    ensures Counts(StateAfter(run[..i]), StateAfter(run[..i + 1]))
  {
    hide StateAfter, Inv, Conserved, Step, Counts;
    RunSafe(run[..i]);
    StateNext(run, i);
    StepCounts(StateAfter(run[..i]), run[i]);
  }

  predicate StateChanges(d: Database, e: Database, r: ResourceRef) {
    r in d.resources && r in e.resources && e.resources[r].state != d.resources[r].state
  }

  /** The number of steps from the `i`-th on that change the recorded state. */
  ghost function ChangesSince(run: seq<Event>, i: nat, r: ResourceRef): nat
    requires i <= |run|
    decreases |run| - i
  {
    if i == |run| then 0
    else (if StateChanges(StateAfter(run[..i]), StateAfter(run[..i + 1]), r) then 1 else 0) + ChangesSince(run, i + 1, r)
  }

  /** From any moment to the end of a run a generation has risen by exactly the number
      of changes of the recorded state. */
  lemma {:induction false} GenerationsCount(run: seq<Event>, i: nat, r: ResourceRef)
    requires i <= |run| && r in StateAfter(run[..i]).resources
    ensures r in StateAfter(run).resources
    ensures StateAfter(run).resources[r].generation == StateAfter(run[..i]).resources[r].generation + ChangesSince(run, i, r)
    decreases |run| - i
  {
    hide StateAfter;
    if i == |run| {
      assert run[..i] == run;
    } else {
      GenerationsExact(run, i);
      GenerationsCount(run, i + 1, r);
    }
  }

  lemma CurrentEvidence(db: Database)
    requires Inv(db)
    ensures EvidenceCurrent(db)
  {
    hide IdsUsed, Owned, Singles, Apart, QueueSound, WritesSound, ResourcesRecorded, EvidenceRecorded, EvidenceCurrent;
    hide ReadsClearOfWrites;
  }

  /** After every run valid evidence shows the recorded state and generation, and what
      was observed under a generation is still on record if and only if the recorded
      state has not changed since. */
  lemma EvidenceNeverStale(run: seq<Event>, i: nat, r: ResourceRef)
    requires i <= |run| && r in StateAfter(run[..i]).resources
    ensures EvidenceCurrent(StateAfter(run))
    ensures r in StateAfter(run).resources
    ensures StateAfter(run).resources[r].generation == StateAfter(run[..i]).resources[r].generation <==> ChangesSince(run, i, r) == 0
    ensures ChangesSince(run, i, r) == 0 ==> StateAfter(run).resources[r].state == StateAfter(run[..i]).resources[r].state
  {
    hide StateAfter, Inv, Conserved, EvidenceCurrent, ChangesSince;
    RunSafe(run);
    CurrentEvidence(StateAfter(run));
    GenerationsCount(run, i, r);
    if ChangesSince(run, i, r) == 0 { Unchanged(run, i, r); }
  }

  lemma {:induction false} Unchanged(run: seq<Event>, i: nat, r: ResourceRef)
    requires i <= |run| && r in StateAfter(run[..i]).resources && ChangesSince(run, i, r) == 0
    ensures r in StateAfter(run).resources && StateAfter(run).resources[r].state == StateAfter(run[..i]).resources[r].state
    decreases |run| - i
  {
    hide StateAfter;
    if i == |run| {
      assert run[..i] == run;
    } else {
      GenerationsExact(run, i);
      Unchanged(run, i + 1, r);
    }
  }
}
