/** A read that counts is of a state that held from its start to its completion
    (crates/stateful-store/src/store_v2.rs). */
module StableReads {
  import opened Basics
  import opened Resources
  import opened Operations
  import opened Tables
  import opened Sweeps
  import opened ReadEvidence
  import opened Commands
  import opened Invariants
  import opened EvidenceProofs
  import opened Safety
  import opened Evolution
  import opened Runs
  import opened ExactlyOnce

  /** What a read attempt started from is never rewritten. */
  ghost predicate ReadsKept(d: Database, e: Database) {
    forall r :: r in d.readAttempts ==>
      r in e.readAttempts && e.readAttempts[r] == d.readAttempts[r].(status := e.readAttempts[r].status)
  }

  lemma ReadsKeptTransitive(c: Database, d: Database, e: Database)
    requires ReadsKept(c, d) && ReadsKept(d, e)
    ensures ReadsKept(c, e)
  {
  }

  lemma SameReadsKept(d: Database, e: Database)
    requires e.readAttempts == d.readAttempts
    ensures ReadsKept(d, e)
  {
  }

  // ---------------------------------------------------------------- frames

  lemma PromoteReads(db: Database, now: Instant)
    ensures Promote(db, now).readAttempts == db.readAttempts && Promote(db, now).resources == db.resources
  {
    hide PromoteThrough;
    PromoteFrame(db, db.queueSequence, now);
  }

  lemma ExpiryReads(db: Database, now: Instant)
    ensures ExpireTasksAndLeases(db, now).readAttempts == db.readAttempts
    ensures ExpireTasksAndLeases(db, now).resources == db.resources
  {
    hide Busy;
  }

  lemma SweepReads(db: Database, now: Instant)
    ensures Sweep(db, now).readAttempts == db.readAttempts && Sweep(db, now).resources == db.resources
  {
    hide ExpireTasksAndLeases, Promote;
    ExpiryReads(db, now);
    PromoteReads(ExpireTasksAndLeases(db, now), now);
  }

  lemma MaintainReads(db: Database, now: Instant)
    ensures ReadsKept(db, Maintain(db, now)) && Maintain(db, now).resources == db.resources
  {
    hide ExpireTasksAndLeases, Promote, ReadsKept;
    var d := ExpireTasksAndLeases(ExpireOffers(db, now), now);
    ExpiryReads(ExpireOffers(db, now), now);
    var e := DrainOverdueWrites(ForgetInactive(d), now);
    PromoteReads(e, now);
    ForgetReads(d, now);
    SameReadsKept(db, d);
    ReadsKeptTransitive(db, d, e);
    SameReadsKept(e, Promote(e, now));
    ReadsKeptTransitive(db, e, Promote(e, now));
  }

  lemma ForgetReads(db: Database, now: Instant)
    ensures ReadsKept(db, DrainOverdueWrites(ForgetInactive(db), now))
    ensures DrainOverdueWrites(ForgetInactive(db), now).resources == db.resources
  {
  }

  // -------------------------------------------------------------- commands

  ghost predicate KeepsReads(db: Database, outcome: Outcome) { outcome.Accepted? ==> ReadsKept(db, outcome.db) }

  predicate KeepsProjection(db: Database, outcome: Outcome) { outcome.Accepted? ==> outcome.db.resources == db.resources }

  lemma EndTaskReads(db: Database, ctx: Context, cmd: Command)
    requires cmd.TaskEnd?
    ensures KeepsReads(db, EndTask(db, ctx, cmd)) && KeepsProjection(db, EndTask(db, ctx, cmd))
  {
    hide Promote, Busy;
    var r := EndTask(db, ctx, cmd);
    if r.Accepted? {
      var t := ctx.Task();
      if !db.tasks[t].status.IsTerminal() {
        var closed := CloseTask(db, t, cmd.kind.Status());
        if !Busy(closed, t) { PromoteReads(SetStatus(ReleaseTaskLeases(closed, t), t, cmd.kind.Status()), ctx.observedAt); }
      }
      SameReadsKept(db, r.db);
    }
  }

  lemma StartReadReads(db: Database, ctx: Context, cmd: Command)
    requires cmd.ReadStart?
    ensures KeepsReads(db, StartRead(db, ctx, cmd))
  {
    hide Canonical, OwnerError, ChangedKeys, NextRow, Hit;
  }

  lemma RecordReadReads(db: Database, t: TaskKey, os: ObservationSet, startedAt: Instant)
    ensures RecordRead(db, t, os, startedAt).readAttempts == db.readAttempts
    ensures RecordRead(db, t, os, startedAt).resources == db.resources
  {
    hide ReadCounts, IntentMoves, FileUnder, HoldUnder;
  }

  lemma FinishReadReads(db: Database, id: Name, status: ReadStatus)
    requires id in db.readAttempts
    ensures ReadsKept(db, FinishRead(db, id, status)) && FinishRead(db, id, status).resources == db.resources
  {
  }

  lemma CompleteReadReads(db: Database, ctx: Context, cmd: Command)
    requires cmd.ReadComplete?
    ensures KeepsReads(db, CompleteRead(db, ctx, cmd)) && KeepsProjection(db, CompleteRead(db, ctx, cmd))
  {
    hide Canonical, CurrentObservations, SameStates, RecordRead, ReadsKept, FinishRead;
    var r := CompleteRead(db, ctx, cmd);
    if r.Accepted? {
      FinishReadReads(db, cmd.readId, r.response.readStatus);
      if r.response.readStatus.ReadCompleted? {
        var read := db.readAttempts[cmd.readId];
        var done := FinishRead(db, cmd.readId, ReadCompleted);
        RecordReadReads(done, ctx.Task(), CurrentObservations(db, ctx.workspace, KeySet(read.started)).value, read.startedAt);
        SameReadsKept(done, r.db);
        ReadsKeptTransitive(db, done, r.db);
      }
    }
  }

  lemma JoinQueueReads(db: Database, ctx: Context, cmd: Command, reported: ObservationSet, union: ResourceSet)
    requires cmd.WritePrepare?
    ensures KeepsReads(db, JoinQueue(db, ctx, cmd, reported, union))
    ensures KeepsProjection(db, JoinQueue(db, ctx, cmd, reported, union))
  {
    hide Promote, HasHistoricalEvidence, HasPending;
    var t := ctx.Task();
    var r := JoinQueue(db, ctx, cmd, reported, union);
    if r.db != db {
      PromoteReads(ReleaseTaskLeases(db, t), ctx.observedAt);
      var free := if HasTaskLease(db, t) then Promote(ReleaseTaskLeases(db, t), ctx.observedAt) else db;
      PromoteReads(Enqueue(free, ctx, union, cmd.requestExpiresAt), ctx.observedAt);
    }
    SameReadsKept(db, r.db);
  }

  lemma NewLeaseReads(db: Database, ctx: Context, union: ResourceSet, expiresAt: Instant)
    requires !HasTaskLease(db, ctx.Task())
    ensures Grant(db, ctx, union, expiresAt).readAttempts == db.readAttempts
    ensures Grant(db, ctx, union, expiresAt).resources == db.resources
  {
    hide HasTaskLease;
  }

  lemma OldLeaseReads(db: Database, ctx: Context, union: ResourceSet, expiresAt: Instant)
    requires HasTaskLease(db, ctx.Task())
    ensures Grant(db, ctx, union, expiresAt).readAttempts == db.readAttempts
    ensures Grant(db, ctx, union, expiresAt).resources == db.resources
  {
    hide HasTaskLease, TaskLease;
  }

  lemma GrantReads(db: Database, ctx: Context, union: ResourceSet, expiresAt: Instant)
    ensures Grant(db, ctx, union, expiresAt).readAttempts == db.readAttempts
    ensures Grant(db, ctx, union, expiresAt).resources == db.resources
  {
    hide HasTaskLease, Grant;
    if HasTaskLease(db, ctx.Task()) {
      OldLeaseReads(db, ctx, union, expiresAt);
    } else {
      NewLeaseReads(db, ctx, union, expiresAt);
    }
  }

  lemma RevokeReads(db: Database, keys: set<ResourceKey>, exclude: Option<TaskKey>)
    ensures Revoke(db, keys, exclude).readAttempts == db.readAttempts && Revoke(db, keys, exclude).leases == db.leases
    ensures Revoke(db, keys, exclude).resources == db.resources
  {
    hide Hit;
  }

  lemma BeginReads(db: Database, ctx: Context, cmd: Command, batch: Uuid, requested: ResourceSet, start: seq<Observation>)
    requires cmd.WritePrepare? && batch in db.leases
    ensures BeginWrite(db, ctx, cmd, batch, requested, start).readAttempts == db.readAttempts
    ensures BeginWrite(db, ctx, cmd, batch, requested, start).resources == db.resources
  {
  }

  lemma GrantedWriteReads(db: Database, ctx: Context, cmd: Command, requested: ResourceSet, union: ResourceSet,
                          start: seq<Observation>)
    requires cmd.WritePrepare?
    ensures KeepsReads(db, GrantedWrite(db, ctx, cmd, requested, union, start))
    ensures KeepsProjection(db, GrantedWrite(db, ctx, cmd, requested, union, start))
  {
    hide GrantError, HasTaskLease, Revoke, SlotTaken, InvocationUsed, BeginWrite, Keys, ReadsKept;
    var r := GrantedWrite(db, ctx, cmd, requested, union, start);
    if r.Accepted? {
      var granted := Grant(db, ctx, union, cmd.leaseExpiresAt);
      var keys := Keys(ctx.workspace, union) + Keys(ctx.workspace, requested);
      GrantReads(db, ctx, union, cmd.leaseExpiresAt);
      RevokeReads(granted, keys, Some(ctx.Task()));
      BeginReads(Revoke(granted, keys, Some(ctx.Task())), ctx, cmd, GrantBatch(db, ctx.Task()), requested, start);
      SameReadsKept(db, r.db);
    }
  }

  lemma DirectWriteReads(db: Database, ctx: Context, cmd: Command, reported: ObservationSet, union: ResourceSet)
    requires cmd.WritePrepare? && Canonical(ctx.workspace, cmd.current) == Ok(reported)
    ensures KeepsReads(db, DirectWrite(db, ctx, cmd, reported, union))
    ensures KeepsProjection(db, DirectWrite(db, ctx, cmd, reported, union))
  {
    hide CurrentObservations, SameStates, HasCurrentEvidence, GrantedWrite, HasTaskLease, Canonical, StartOf, ReadsKept;
    SameReadsKept(db, db);
    var current := CurrentObservations(db, ctx.workspace, KeySet(reported));
    CanonicalKeys(ctx.workspace, cmd.current);
    if current.Ok? {
      GrantedWriteReads(db, ctx, cmd, KeySet(reported), union, StartOf(cmd.current, current.value));
    }
  }

  lemma PrepareWriteReads(db: Database, ctx: Context, cmd: Command)
    requires cmd.WritePrepare?
    ensures KeepsReads(db, PrepareWrite(db, ctx, cmd)) && KeepsProjection(db, PrepareWrite(db, ctx, cmd))
  {
    hide Union, Contended, JoinQueue, DirectWrite, ReadsKept, ValidateOperationStart, Canonical, WithinWindow;
    var reported := Canonical(ctx.workspace, cmd.current);
    if PrepareWrite(db, ctx, cmd).Accepted? {
      var union := Union(db, ctx.Task(), KeySet(reported.value));
      JoinQueueReads(db, ctx, cmd, reported.value, union);
      DirectWriteReads(db, ctx, cmd, reported.value, union);
    }
  }

  lemma ActivateLeaseReads(db: Database, ctx: Context, cmd: Command)
    requires cmd.LeaseActivate?
    ensures KeepsReads(db, ActivateLease(db, ctx, cmd)) && KeepsProjection(db, ActivateLease(db, ctx, cmd))
  {
    hide CurrentObservations, HasCurrentEvidence, Conflict, HasTaskLease, AgentSlotOccupied, Hit;
    var r := ActivateLease(db, ctx, cmd);
    if r.Accepted? { SameReadsKept(db, r.db); }
  }

  lemma ReleaseLeaseReads(db: Database, ctx: Context, cmd: Command)
    requires cmd.LeaseRelease?
    ensures KeepsReads(db, ReleaseLease(db, ctx, cmd)) && KeepsProjection(db, ReleaseLease(db, ctx, cmd))
  {
    hide Promote, HasTaskLease, ReadsKept;
    var r := ReleaseLease(db, ctx, cmd);
    if r.Accepted? {
      PromoteReads(DropLease(db, cmd.batch), ctx.observedAt);
      SameReadsKept(db, r.db);
    }
  }

  lemma LeftReads(db: Database, t: TaskKey, attempt: WriteAttempt, a: Uuid, verdict: WriteStatus, actual: ObservationSet)
    requires a in db.attempts
    ensures a in RecordVerdict(db, t, attempt, verdict, actual).attempts
    ensures Settle(RecordVerdict(db, t, attempt, verdict, actual), a, verdict).readAttempts == db.readAttempts
  {
    hide Hit, NextRow, Changes, FileUnder;
  }

  lemma FinishReads(db: Database, b: Uuid, t: TaskKey)
    ensures DropLease(db, b).readAttempts == db.readAttempts && DrainLease(db, b).readAttempts == db.readAttempts
    ensures FinishDraining(db, t).readAttempts == db.readAttempts
  {
    hide Busy;
  }

  lemma CompleteWriteReads(db: Database, ctx: Context, cmd: Command)
    requires cmd.WriteComplete?
    ensures KeepsReads(db, CompleteWrite(db, ctx, cmd))
  {
    hide Canonical, WriteVerdict, RecordVerdict, Settle, DrainLease, DropLease, FinishDue, Promote;
    hide FinishDraining, ReleaseDue, ReadsKept;
    var r := CompleteWrite(db, ctx, cmd);
    if r.Accepted? {
      var t := ctx.Task();
      var attempt := db.attempts[cmd.attempt];
      var actual := Canonical(ctx.workspace, cmd.post).value;
      var verdict := WriteVerdict(attempt, cmd, actual, Canonical(ctx.workspace, cmd.expected).value);
      LeftReads(db, t, attempt, cmd.attempt, verdict, actual);
      var settled := Settle(RecordVerdict(db, t, attempt, verdict, actual), cmd.attempt, verdict);
      FinishReads(settled, attempt.batch, t);
      var drop := !verdict.Uncertain? && ReleaseDue(settled, attempt.batch);
      var left :=
        if verdict.Uncertain? then DrainLease(settled, attempt.batch)
        else if drop then DropLease(settled, attempt.batch)
        else settled;
      FinishReads(left, attempt.batch, t);
      PromoteReads(FinishDraining(left, t), ctx.observedAt);
      SameReadsKept(db, r.db);
    }
  }

  lemma OperateReads(db: Database, ctx: Context, cmd: Command)
    ensures KeepsReads(db, Operate(db, ctx, cmd))
  {
    hide EndTask, StartRead, CompleteRead, PrepareWrite, ActivateLease, ReleaseLease, CompleteWrite;
    match cmd
    case TaskStart(_, _, _, _) =>
    case TaskHeartbeat(_, _) =>
    case TaskEnd(_, _) => EndTaskReads(db, ctx, cmd);
    case ReadStart(_, _, _) => StartReadReads(db, ctx, cmd);
    case ReadComplete(_, _, _, _, _, _, _) => CompleteReadReads(db, ctx, cmd);
    case WritePrepare(_, _, _, _, _, _) => PrepareWriteReads(db, ctx, cmd);
    case LeaseActivate(_, _, _, _) => ActivateLeaseReads(db, ctx, cmd);
    case LeaseRelease(_) => ReleaseLeaseReads(db, ctx, cmd);
    case WriteComplete(_, _, _, _, _, _, _) => CompleteWriteReads(db, ctx, cmd);
  }

  lemma StepReads(db: Database, event: Event)
    ensures ReadsKept(db, Step(db, event))
  {
    hide ReadsKept, Operate, Sweep, Maintain;
    SameReadsKept(db, db);
    match event
    case Maintenance(now) => MaintainReads(db, now);
    case Request(ctx, cmd) =>
      var swept := Sweep(db, ctx.observedAt);
      SweepReads(db, ctx.observedAt);
      SameReadsKept(db, swept);
      OperateReads(swept, ctx, cmd);
      if Step(db, event) != db {
        var done := Operate(swept, ctx, cmd).db;
        ReadsKeptTransitive(db, swept, done);
        SameReadsKept(done, Step(db, event));
        ReadsKeptTransitive(db, done, Step(db, event));
      }
  }

  lemma {:induction false} RunReads(db: Database, run: seq<Event>)
    ensures ReadsKept(db, RunFrom(db, run))
    decreases |run|
  {
    hide ReadsKept, Step;
    if run == [] {
      SameReadsKept(db, db);
    } else {
      StepReads(db, run[0]);
      RunReads(Step(db, run[0]), run[1..]);
      ReadsKeptTransitive(db, Step(db, run[0]), RunFrom(db, run));
    }
  }

  // --------------------------------------------------------------- theorem

  /** The projection records exactly what the observations say. */
  ghost predicate Shows(db: Database, workspace: Name, os: ObservationSet) {
    forall i :: i in os ==>
      && ResourceRef(workspace, i) in db.resources
      && db.resources[ResourceRef(workspace, i)].state == os[i].observed
      && db.resources[ResourceRef(workspace, i)].generation == os[i].generation
  }

  lemma StartShows(db: Database, ctx: Context, cmd: Command)
    requires cmd.ReadStart? && StartRead(db, ctx, cmd).Accepted?
    ensures var e := StartRead(db, ctx, cmd).db;
            && cmd.readId in e.readAttempts && e.readAttempts[cmd.readId].task == ctx.Task()
            && Shows(e, ctx.workspace, e.readAttempts[cmd.readId].started)
  {
    hide OwnerError, Canonical, Sync, Synced;
    var os := Canonical(ctx.workspace, cmd.observations).value;
    CanonicalFiled(ctx.workspace, cmd.observations);
    SyncedShows(db, ctx.workspace, os);
  }

  lemma SyncedShows(db: Database, workspace: Name, os: ObservationSet)
    requires Filed(workspace, os)
    ensures Shows(Sync(db, workspace, os), workspace, Synced(db, os))
  {
    forall i | i in Synced(db, os)
      ensures ResourceRef(workspace, i) in Sync(db, workspace, os).resources
      ensures Sync(db, workspace, os).resources[ResourceRef(workspace, i)].state == Synced(db, os)[i].observed
      ensures Sync(db, workspace, os).resources[ResourceRef(workspace, i)].generation == Synced(db, os)[i].generation
    {
      SyncRows(db, workspace, os, ResourceRef(workspace, i));
    }
  }

  lemma CompleteShows(db: Database, ctx: Context, cmd: Command)
    requires cmd.ReadComplete? && CompleteRead(db, ctx, cmd).Accepted?
    requires CompleteRead(db, ctx, cmd).response.readStatus.ReadCompleted?
    ensures cmd.readId in db.readAttempts && db.readAttempts[cmd.readId].task == ctx.Task()
    ensures Shows(db, ctx.workspace, db.readAttempts[cmd.readId].started)
  {
    hide OwnerError, Canonical, SameStates, RecordRead;
  }

  /** What is shown at both ends, with the same generations, was shown all along. */
  lemma ShownBetween(d: Database, e: Database, f: Database, workspace: Name, os: ObservationSet)
    requires Shows(d, workspace, os) && Shows(f, workspace, os) && ResourcesEvolve(d, e) && ResourcesEvolve(e, f)
    ensures Shows(e, workspace, os)
  {
  }

  /** A read begun at step `i` and completed as counting at step `j` saw, for each of
      its resources, the one state that was on record at every moment in between. */
  lemma ReadsAreStable(run: seq<Event>, i: nat, j: nat, k: nat)
    requires i < k <= j < |run| && run[i].Request? && run[j].Request?
    requires run[i].cmd.ReadStart? && run[j].cmd.ReadComplete? && run[j].cmd.readId == run[i].cmd.readId
    requires !IsRetry(StateAfter(run[..i]), run[i]) && Reply(run, i).Ok?
    requires !IsRetry(StateAfter(run[..j]), run[j]) && Reply(run, j).Ok?
    requires Reply(run, j).value.ReadResult? && Reply(run, j).value.readStatus.ReadCompleted?
    ensures run[i].cmd.readId in StateAfter(run[..i + 1]).readAttempts
    ensures Shows(StateAfter(run[..k]), run[i].ctx.workspace, StateAfter(run[..i + 1]).readAttempts[run[i].cmd.readId].started)
  {
    hide StateAfter, Execute, StartRead, CompleteRead, Sweep, Shows, ReadsKept, Inv;
    var id, w := run[i].cmd.readId, run[i].ctx.workspace;
    var c, g := StateAfter(run[..i]), StateAfter(run[..j]);
    var d, e := StateAfter(run[..i + 1]), StateAfter(run[..k]);
    AcceptedMeans(c, run[i].ctx, run[i].cmd);
    StartShows(Sweep(c, run[i].ctx.observedAt), run[i].ctx, run[i].cmd);
    StateNext(run, i);
    var started := StartRead(Sweep(c, run[i].ctx.observedAt), run[i].ctx, run[i].cmd).db;
    SameShows(started, d, w, d.readAttempts[id].started);
    AcceptedMeans(g, run[j].ctx, run[j].cmd);
    var swept := Sweep(g, run[j].ctx.observedAt);
    CompleteShows(swept, run[j].ctx, run[j].cmd);
    SweepReads(g, run[j].ctx.observedAt);
    BetweenReads(run, i + 1, k, j, id);
    assert run[j].ctx.Task() == run[i].ctx.Task();
    SameShows(swept, g, w, g.readAttempts[id].started);
    ShownBetween(d, e, g, w, d.readAttempts[id].started);
  }

  lemma SameShows(d: Database, e: Database, workspace: Name, os: ObservationSet)
    requires Shows(d, workspace, os) && e.resources == d.resources
    ensures Shows(e, workspace, os)
  {
  }

  lemma BetweenReads(run: seq<Event>, i: nat, k: nat, j: nat, id: Name)
    requires i <= k <= j <= |run| && id in StateAfter(run[..i]).readAttempts
    ensures id in StateAfter(run[..j]).readAttempts
    ensures StateAfter(run[..j]).readAttempts[id].started == StateAfter(run[..i]).readAttempts[id].started
    ensures StateAfter(run[..j]).readAttempts[id].task == StateAfter(run[..i]).readAttempts[id].task
    ensures ResourcesEvolve(StateAfter(run[..i]), StateAfter(run[..k])) && ResourcesEvolve(StateAfter(run[..k]), StateAfter(run[..j]))
  {
    hide Inv, RunFrom, ResourcesEvolve, EvidenceEvolves, TasksEvolve, RequestsEvolve, AttemptsEvolve, LeasesEvolve, ReceiptsEvolve;
    assert run[..k][..i] == run[..i] && run[..j][..k] == run[..k] && run[..j][..i] == run[..i];
    RunLater(run[..k], i);
    RunLater(run[..j], k);
    RunSplits(EMPTY, run[..j], i);
    RunReads(StateAfter(run[..i]), run[..j][i..]);
  }
}
