/** Each command moves the tables only along `Evolves`. */
module CommandEvolution {
  import opened Basics
  import opened Operations
  import opened Tables
  import opened Sweeps
  import opened ReadEvidence
  import opened Commands
  import opened Invariants
  import opened Reductions
  import opened SweepProofs
  import opened EvidenceProofs
  import opened GrantProofs
  import opened CommandProofs
  import opened Safety
  import opened Evolution

  ghost predicate Forward(db: Database, outcome: Outcome) {
    outcome.Accepted? ==> Evolves(db, outcome.db)
  }

  lemma TaskRowEvolves(d: Database, e: Database)
    requires e == d.(tasks := e.tasks) && TasksEvolve(d, e)
    ensures Evolves(d, e)
  {
    ReduceEvolves(d, e);
  }

  lemma StartTaskForward(db: Database, ctx: Context, cmd: Command)
    requires cmd.TaskStart?
    ensures Forward(db, StartTask(db, ctx, cmd))
  {
    hide Evolves;
    EvolvesReflexive(db);
    var r := StartTask(db, ctx, cmd);
    if r.Accepted? && ctx.Task() !in db.tasks { TaskRowEvolves(db, r.db); }
  }

  lemma HeartbeatForward(db: Database, ctx: Context, cmd: Command)
    requires cmd.TaskHeartbeat?
    ensures Forward(db, Heartbeat(db, ctx, cmd))
  {
    hide Evolves;
    var r := Heartbeat(db, ctx, cmd);
    if r.Accepted? { TaskRowEvolves(db, r.db); }
  }

  lemma CloseEvolves(db: Database, t: TaskKey, terminal: TaskStatus)
    requires t in db.tasks && !db.tasks[t].status.IsTerminal()
    ensures Evolves(db, CloseTask(db, t, terminal)) && t in CloseTask(db, t, terminal).tasks
    ensures CloseTask(db, t, terminal).tasks[t].status.Draining?
  {
    hide Reduces;
    CloseReduces(db, t, terminal);
    ReduceEvolves(db, CloseTask(db, t, terminal));
  }

  lemma ReleaseEvolves(db: Database, t: TaskKey)
    ensures Evolves(db, ReleaseTaskLeases(db, t)) && ReleaseTaskLeases(db, t).tasks == db.tasks
  {
    ReduceEvolves(db, ReleaseTaskLeases(db, t));
  }

  lemma TerminalEvolves(db: Database, t: TaskKey, status: TaskStatus)
    requires t in db.tasks && db.tasks[t].status.Draining? && status.IsTerminal()
    ensures Evolves(db, SetStatus(db, t, status))
  {
    TaskRowEvolves(db, SetStatus(db, t, status));
  }

  lemma EndTaskForward(db: Database, ctx: Context, cmd: Command)
    requires Inv(db) && cmd.TaskEnd?
    ensures Forward(db, EndTask(db, ctx, cmd))
  {
    hide Inv, Evolves, CloseTask, ReleaseTaskLeases, DrainTaskLeases, Promote, Busy;
    EvolvesReflexive(db);
    var t := ctx.Task();
    var r := EndTask(db, ctx, cmd);
    if r.Accepted? && !db.tasks[t].status.IsTerminal() {
      var terminal := cmd.kind.Status();
      var c := CloseTask(db, t, terminal);
      CloseEvolves(db, t, terminal);
      SameBusy(db, t, terminal);
      if Busy(c, t) {
        DrainTaskHolds(c, t);
        DrainEvolves(c, DrainTaskLeases(c, t));
        EvolvesTransitive(db, c, DrainTaskLeases(c, t));
      } else {
        ReleaseEvolves(c, t);
        EvolvesTransitive(db, c, ReleaseTaskLeases(c, t));
        TerminalEvolves(ReleaseTaskLeases(c, t), t, terminal);
        EvolvesTransitive(db, ReleaseTaskLeases(c, t), SetStatus(ReleaseTaskLeases(c, t), t, terminal));
        EndIdleKeeps(db, t, terminal);
        ThenPromoteEvolves(db, SetStatus(ReleaseTaskLeases(c, t), t, terminal), ctx.observedAt);
      }
    }
  }

  lemma ReadRowEvolves(d: Database, e: Database)
    requires e == d.(readAttempts := e.readAttempts)
    ensures Evolves(d, e)
  {
    CoreEvolves(d, e);
  }

  lemma StartReadForward(db: Database, ctx: Context, cmd: Command)
    requires Inv(db) && cmd.ReadStart?
    ensures Forward(db, StartRead(db, ctx, cmd))
  {
    hide Inv, Evolves, Sync, Canonical, Filed;
    var r := StartRead(db, ctx, cmd);
    if r.Accepted? {
      CanonicalFiled(ctx.workspace, cmd.observations);
      var d := Sync(db, ctx.workspace, Canonical(ctx.workspace, cmd.observations).value);
      SyncEvolves(db, ctx.workspace, Canonical(ctx.workspace, cmd.observations).value);
      ReadRowEvolves(d, r.db);
      EvolvesTransitive(db, d, r.db);
    }
  }

  lemma RecordReadReceipts(db: Database, t: TaskKey, os: ObservationSet, startedAt: Instant)
    ensures RecordRead(db, t, os, startedAt).receipts == db.receipts
  {
  }

  lemma CompleteReadForward(db: Database, ctx: Context, cmd: Command)
    requires Inv(db) && cmd.ReadComplete?
    ensures Forward(db, CompleteRead(db, ctx, cmd))
  {
    hide Inv, Evolves, Canonical, CurrentObservations, SameStates, RecordRead, IdsUsed, Files;
    var r := CompleteRead(db, ctx, cmd);
    if r.Accepted? {
      var read := db.readAttempts[cmd.readId];
      ReadRowEvolves(db, FinishRead(db, cmd.readId, ReadFailed));
      if r.response.readStatus.ReadCompleted? {
        var d := FinishRead(db, cmd.readId, ReadCompleted);
        var os := CurrentObservations(db, ctx.workspace, KeySet(read.started)).value;
        ReadRowEvolves(db, d);
        ReadsKeep(db, d);
        Parts(d);
        RecordReadFiles(d, ctx.Task(), os, read.startedAt);
        RecordReadReceipts(d, ctx.Task(), os, read.startedAt);
        FilesEvolves(d, r.db, ctx.Task(), os);
        EvolvesTransitive(db, d, r.db);
      }
    }
  }

  lemma ActivateLeaseForward(db: Database, ctx: Context, cmd: Command)
    requires Inv(db) && cmd.LeaseActivate?
    ensures Forward(db, ActivateLease(db, ctx, cmd))
  {
    hide Inv, Evolves, CurrentObservations, HasCurrentEvidence, Conflict, HasTaskLease, AgentSlotOccupied, WithActivated, Revoke;
    EvolvesReflexive(db);
    var r := ActivateLease(db, ctx, cmd);
    if r.Accepted? && r.response.active {
      RequestAgent(db, cmd.batch);
      var keys := Keys(ctx.workspace, db.requests[cmd.batch].resources);
      var d := Revoke(db, keys, Some(ctx.Task()));
      RevokeSettles(db, keys, Some(ctx.Task()));
      RevokeEvolves(db, keys, Some(ctx.Task()));
      WithActivatedDoes(db, ctx, cmd);
      ActivateEvolves(d, r.db, cmd.batch);
      EvolvesTransitive(db, d, r.db);
    }
  }

  lemma DropEvolves(db: Database, b: Uuid)
    ensures Evolves(db, DropLease(db, b))
  {
    ReduceEvolves(db, DropLease(db, b));
  }

  lemma ReleaseLeaseForward(db: Database, ctx: Context, cmd: Command)
    requires Inv(db) && cmd.LeaseRelease?
    ensures Forward(db, ReleaseLease(db, ctx, cmd))
  {
    hide Inv, Evolves, Promote, DropLease, DrainLease;
    var r := ReleaseLease(db, ctx, cmd);
    if r.Accepted? {
      if db.leases[cmd.batch].slots == map[] {
        DropEvolves(db, cmd.batch);
        DropIdleKeeps(db, cmd.batch);
        ThenPromoteEvolves(db, DropLease(db, cmd.batch), ctx.observedAt);
      } else {
        DrainOneHolds(db, cmd.batch);
        DrainEvolves(db, DrainLease(db, cmd.batch));
      }
    }
  }

  lemma JoinQueueForward(db: Database, ctx: Context, cmd: Command, reported: ObservationSet)
    requires Inv(db) && cmd.WritePrepare? && OwnerError(db, ctx, true).None? && Filed(ctx.workspace, reported)
    ensures Forward(db, JoinQueue(db, ctx, cmd, reported, Union(db, ctx.Task(), KeySet(reported))))
  {
    hide Inv, Evolves, Union, Promote, Enqueue, Enqueues, MayQueue, HasTaskLease, HasPending, OwnerError, ReleaseTaskLeases, IdsUsed;
    EvolvesReflexive(db);
    var t := ctx.Task();
    var union := Union(db, t, KeySet(reported));
    if && HasHistoricalEvidence(db, t, reported)
       && !(HasTaskLease(db, t) && db.leases[TaskLease(db, t)].slots != map[])
       && !(!HasTaskLease(db, t) && HasPending(db, t) && db.requests[PendingRequest(db, t)].resources == union)
    {
      RequestedRecorded(db, t, reported);
      UnionRecorded(db, t, KeySet(reported));
      var free := if HasTaskLease(db, t) then Promote(ReleaseTaskLeases(db, t), ctx.observedAt) else db;
      if HasTaskLease(db, t) {
        FreedMayQueue(db, ctx, union, ctx.observedAt);
        ReleaseEvolves(db, t);
        ReleaseUnusedKeeps(db, t);
        ThenPromoteEvolves(db, ReleaseTaskLeases(db, t), ctx.observedAt);
      } else {
        WaitingMayQueue(db, ctx, KeySet(reported));
      }
      var queued := Enqueue(free, ctx, union, cmd.requestExpiresAt);
      EnqueueKeeps(free, ctx, union, cmd.requestExpiresAt);
      EnqueueDoes(free, ctx, union, cmd.requestExpiresAt);
      Parts(free);
      EnqueueEvolves(free, queued, ctx, union);
      EvolvesTransitive(db, free, queued);
      ThenPromoteEvolves(db, queued, ctx.observedAt);
    }
  }

  lemma DirectWriteForward(db: Database, ctx: Context, cmd: Command, reported: ObservationSet)
    requires Inv(db) && cmd.WritePrepare? && OwnerError(db, ctx, true).None?
    requires Canonical(ctx.workspace, cmd.current) == Ok(reported) && reported != map[]
    requires !Contended(db, ctx, Union(db, ctx.Task(), KeySet(reported)))
    ensures Forward(db, DirectWrite(db, ctx, cmd, reported, Union(db, ctx.Task(), KeySet(reported))))
  {
    hide Inv, Evolves, Union, Contended, CurrentObservations, SameStates, HasCurrentEvidence, GrantError, GrantBatch, IdsUsed;
    hide Grant, Grants, Revoke, BeginWrite, Begins, MayGrant, OwnerError, Canonical, StartOf, CoreSame;
    EvolvesReflexive(db);
    var t := ctx.Task();
    var requested := KeySet(reported);
    var union := Union(db, t, requested);
    var r := DirectWrite(db, ctx, cmd, reported, union);
    if r.Accepted? && r.response.Ready? {
      var batch := GrantBatch(db, t);
      var granted := Grant(db, ctx, union, cmd.leaseExpiresAt);
      var keys := Keys(ctx.workspace, union) + Keys(ctx.workspace, requested);
      var revoked := Revoke(granted, keys, Some(t));
      var current := CurrentObservations(db, ctx.workspace, requested).value;
      GrantDoes(db, ctx, requested, cmd.leaseExpiresAt);
      GrantsLease(db, granted, batch, ctx, union);
      UncontendedMayGrant(db, ctx, union);
      GrantKeeps(db, granted, batch, ctx, union);
      GrantEvolves(db, granted, batch, ctx, union);
      RevokeKeeps(granted, keys, Some(t));
      RevokeClears(granted, batch, keys);
      RevokeEvolves(granted, keys, Some(t));
      EvolvesTransitive(db, granted, revoked);
      CanonicalKeys(ctx.workspace, cmd.current);
      StartIds(db, ctx.workspace, cmd.current, requested);
      UnionHasRequested(db, t, requested);
      BeginWriteDoes(revoked, ctx, cmd, batch, requested, StartOf(cmd.current, current));
      Parts(revoked);
      BeginEvolves(revoked, r.db, batch, revoked.nextUuid, requested.Keys);
      EvolvesTransitive(db, revoked, r.db);
    }
  }

  lemma PrepareWriteForward(db: Database, ctx: Context, cmd: Command)
    requires Inv(db) && cmd.WritePrepare?
    ensures Forward(db, PrepareWrite(db, ctx, cmd))
  {
    hide Inv, Evolves, Union, Contended, JoinQueue, DirectWrite, Canonical, ValidateOperationStart, Filed;
    CanonicalFiled(ctx.workspace, cmd.current);
    var reported := Canonical(ctx.workspace, cmd.current);
    if PrepareWrite(db, ctx, cmd).Accepted? {
      if Contended(db, ctx, Union(db, ctx.Task(), KeySet(reported.value))) {
        JoinQueueForward(db, ctx, cmd, reported.value);
      } else {
        DirectWriteForward(db, ctx, cmd, reported.value);
      }
    }
  }

  lemma VerdictEvolves(db: Database, t: TaskKey, attempt: WriteAttempt, verdict: WriteStatus, actual: ObservationSet)
    requires Inv(db) && Filed(t.workspace, actual)
    ensures Evolves(db, RecordVerdict(db, t, attempt, verdict, actual))
  {
    hide Inv, Evolves, Sync, Synced, Revoke, Filed, Files, IdsUsed, FileUnder;
    EvolvesReflexive(db);
    if verdict.WriteCompleted? {
      var synced := Sync(db, t.workspace, actual);
      SyncKeeps(db, t.workspace, actual);
      SyncEvolves(db, t.workspace, actual);
      RecordOwnWriteFiles(synced, t, Synced(db, actual));
      Parts(synced);
      FilesEvolves(synced, RecordOwnWrite(synced, t, Synced(db, actual)), t, Synced(db, actual));
      EvolvesTransitive(db, synced, RecordOwnWrite(synced, t, Synced(db, actual)));
    } else if verdict.Uncertain? {
      RevokeEvolves(db, KeysOf(attempt.start), None);
    }
  }

  lemma SettleEvolves(d: Database, e: Database, a: Uuid)
    requires Settles(d, e, a)
    ensures Evolves(d, e)
  {
    SettleReduces(d, e, a);
    assert TasksEvolve(d, e);
    hide *;
    ReduceEvolves(d, e);
  }

  lemma LeftEvolves(d: Database, a: Uuid, verdict: WriteStatus)
    requires Inv(d) && a in d.attempts && d.attempts[a].status.Executing? && !verdict.Executing?
    ensures var batch := d.attempts[a].batch;
            var settled := Settle(d, a, verdict);
            if verdict.Uncertain? then Evolves(d, DrainLease(settled, batch))
            else Evolves(d, settled) && (ReleaseDue(settled, batch) ==> Evolves(d, DropLease(settled, batch)))
  {
    hide Inv, Evolves, Settle, Settles, DrainLease, DropLease;
    var batch := d.attempts[a].batch;
    var settled := Settle(d, a, verdict);
    if verdict.Uncertain? {
      ExecutingHasLease(d, a);
      SettleUncertainDoes(d, a);
      SettleEvolves(d, DrainLease(settled, batch), a);
    } else {
      SettleDoes(d, a, verdict);
      SettleKeeps(d, settled, a);
      SettleEvolves(d, settled, a);
      DropEvolves(settled, batch);
      EvolvesTransitive(d, settled, DropLease(settled, batch));
    }
  }

  lemma FinishEvolves(db: Database, t: TaskKey)
    requires Inv(db)
    ensures Evolves(db, FinishDraining(db, t))
  {
    hide Inv, Evolves, Busy, ReleaseTaskLeases;
    EvolvesReflexive(db);
    if FinishDue(db, t) {
      var d := ReleaseTaskLeases(db, t);
      ReleaseEvolves(db, t);
      DrainingWaitsForNothing(db, t);
      TerminalEvolves(d, t, db.tasks[t].terminal.value);
      EvolvesTransitive(db, d, SetStatus(d, t, db.tasks[t].terminal.value));
    }
  }

  lemma CompleteWriteForward(db: Database, ctx: Context, cmd: Command)
    requires Inv(db) && Conserved(db) && cmd.WriteComplete?
    ensures Forward(db, CompleteWrite(db, ctx, cmd))
  {
    hide Inv, Evolves, Conserved, Canonical, Filed, WriteVerdict, RecordVerdict, Settle, DrainLease, DropLease, FinishDue;
    hide FinishDraining, ReleaseDue, Promote;
    var r := CompleteWrite(db, ctx, cmd);
    if r.Accepted? {
      var t := ctx.Task();
      var attempt := db.attempts[cmd.attempt];
      CanonicalFiled(ctx.workspace, cmd.post);
      var actual := Canonical(ctx.workspace, cmd.post).value;
      var verdict := WriteVerdict(attempt, cmd, actual, Canonical(ctx.workspace, cmd.expected).value);
      VerdictFinal(attempt, cmd, actual, Canonical(ctx.workspace, cmd.expected).value);
      var d := RecordVerdict(db, t, attempt, verdict, actual);
      VerdictKeeps(db, t, attempt, verdict, actual);
      VerdictEvolves(db, t, attempt, verdict, actual);
      SamePlaces(db, d);
      LeftKeeps(d, cmd.attempt, verdict);
      LeftEvolves(d, cmd.attempt, verdict);
      var settled := Settle(d, cmd.attempt, verdict);
      var drop := !verdict.Uncertain? && ReleaseDue(settled, attempt.batch);
      var left :=
        if verdict.Uncertain? then DrainLease(settled, attempt.batch)
        else if drop then DropLease(settled, attempt.batch)
        else settled;
      EvolvesTransitive(db, d, left);
      FinishKeeps(left, t);
      FinishEvolves(left, t);
      EvolvesTransitive(db, left, FinishDraining(left, t));
      if drop || FinishDue(left, t) {
        ThenPromoteEvolves(db, FinishDraining(left, t), ctx.observedAt);
      }
    }
  }

  lemma OperateForward(db: Database, ctx: Context, cmd: Command)
    requires Inv(db) && Conserved(db)
    ensures Forward(db, Operate(db, ctx, cmd))
  {
    hide Forward, Inv, Conserved, StartTask, Heartbeat, EndTask, StartRead, CompleteRead, PrepareWrite;
    hide ActivateLease, ReleaseLease, CompleteWrite;
    match cmd
    case TaskStart(_, _, _, _) => StartTaskForward(db, ctx, cmd);
    case TaskHeartbeat(_, _) => HeartbeatForward(db, ctx, cmd);
    case TaskEnd(_, _) => EndTaskForward(db, ctx, cmd);
    case ReadStart(_, _, _) => StartReadForward(db, ctx, cmd);
    case ReadComplete(_, _, _, _, _, _, _) => CompleteReadForward(db, ctx, cmd);
    case WritePrepare(_, _, _, _, _, _) => PrepareWriteForward(db, ctx, cmd);
    case LeaseActivate(_, _, _, _) => ActivateLeaseForward(db, ctx, cmd);
    case LeaseRelease(_) => ReleaseLeaseForward(db, ctx, cmd);
    case WriteComplete(_, _, _, _, _, _, _) => CompleteWriteForward(db, ctx, cmd);
  }

  lemma ReceiptLater(c: Database, d: Database, e: Database, k: ReceiptKey)
    requires Evolves(c, d) && k !in c.receipts && k in e.receipts && e == d.(receipts := d.receipts[k := e.receipts[k]])
    ensures Later(c, e)
  {
  }

  /** Whatever a command does, the tables only move forward. */
  lemma ExecuteLater(db: Database, ctx: Context, cmd: Command)
    requires Inv(db) && Conserved(db)
    ensures Later(db, Execute(db, ctx, cmd).0)
  {
    hide Inv, Conserved, Sweep, Operate, TablesEvolve;
    EvolvesReflexive(db);
    if ctx.Valid() && ReceiptKeyOf(ctx) !in db.receipts {
      var d := Sweep(db, ctx.observedAt);
      SweepKeeps(db, ctx.observedAt);
      SweepEvolves(db, ctx.observedAt);
      OperateForward(d, ctx, cmd);
      var r := Operate(d, ctx, cmd);
      if r.Accepted? {
        EvolvesTransitive(db, d, r.db);
        ReceiptLater(db, r.db, Execute(db, ctx, cmd).0, ReceiptKeyOf(ctx));
      }
    }
  }
}
