/** Each command, taken from a state that satisfies the invariant, ends in one. */
module Safety {
  import opened Basics
  import opened Resources
  import opened Operations
  import opened Tables
  import opened Sweeps
  import opened ReadEvidence
  import opened Commands
  import opened Invariants
  import opened Reductions
  import opened SweepProofs
  import opened EvidenceProofs
  import opened GrantProofs
  import opened CommandProofs

  lemma SamePlaces(d: Database, e: Database)
    requires Conserved(d) && e.leases == d.leases && e.requests == d.requests
    ensures Conserved(e)
  {
    hide Blocked;
    assert HoldsOn(d, e);
    HoldsConserved(d, e);
  }

  // ---------------------------------------------------------------- tasks

  lemma NewTaskOwned(db: Database, t: TaskKey, task: Task)
    requires Owned(db) && t !in db.tasks && task.status.Active? && task.settings.Valid()
    ensures Owned(db.(tasks := db.tasks[t := task]))
  {
  }

  lemma StartTaskSafe(db: Database, ctx: Context, cmd: Command)
    requires Inv(db) && Conserved(db) && cmd.TaskStart?
    ensures Safe(StartTask(db, ctx, cmd))
  {
    hide IdsUsed, Owned, Singles, Apart, QueueSound, WritesSound, EvidenceSound, Conserved;
    var r := StartTask(db, ctx, cmd);
    if r.Accepted? && ctx.Task() !in db.tasks {
      NewTaskOwned(db, ctx.Task(), Task(ctx.agent, Active, None, cmd.settings, cmd.taskExpiresAt));
      TasksKeep(db, r.db);
      SamePlaces(db, r.db);
    }
  }

  lemma ProlongedOwned(db: Database, t: TaskKey, expiresAt: Instant)
    requires Owned(db) && t in db.tasks
    ensures Owned(db.(tasks := db.tasks[t := db.tasks[t].(expiresAt := expiresAt)]))
  {
  }

  lemma HeartbeatSafe(db: Database, ctx: Context, cmd: Command)
    requires Inv(db) && Conserved(db) && cmd.TaskHeartbeat?
    ensures Safe(Heartbeat(db, ctx, cmd))
  {
    hide IdsUsed, Owned, Singles, Apart, QueueSound, WritesSound, EvidenceSound, Conserved;
    var r := Heartbeat(db, ctx, cmd);
    if r.Accepted? {
      ProlongedOwned(db, ctx.Task(), cmd.taskExpiresAt);
      TasksKeep(db, r.db);
      SamePlaces(db, r.db);
    }
  }

  /** A busy task holds a lease, so it waits for nothing: closing it frees nothing. */
  lemma CloseBusyHolds(db: Database, t: TaskKey, terminal: TaskStatus)
    requires Inv(db) && t in db.tasks && Busy(db, t)
    ensures HoldsOn(db, CloseTask(db, t, terminal))
  {
    hide IdsUsed, Owned, Apart, QueueSound, EvidenceSound;
  }

  lemma DrainTaskHolds(d: Database, t: TaskKey)
    ensures DrainsSome(d, DrainTaskLeases(d, t)) && HoldsOn(d, DrainTaskLeases(d, t))
  {
  }

  lemma EndedOwned(db: Database, t: TaskKey, terminal: TaskStatus)
    requires t in db.tasks
    ensures var c := ReleaseTaskLeases(CloseTask(db, t, terminal), t);
            t in c.tasks && !HasTaskLease(c, t) && !HasPending(c, t)
  {
  }

  lemma EndTaskSafe(db: Database, ctx: Context, cmd: Command)
    requires Inv(db) && Conserved(db) && cmd.TaskEnd?
    ensures Safe(EndTask(db, ctx, cmd))
  {
    hide Inv, Conserved, CloseTask, ReleaseTaskLeases, DrainTaskLeases, Promote, Busy;
    var t := ctx.Task();
    var r := EndTask(db, ctx, cmd);
    if r.Accepted? && !db.tasks[t].status.IsTerminal() {
      var closed := CloseTask(db, t, cmd.kind.Status());
      CloseKeeps(db, t, cmd.kind.Status());
      SameBusy(db, t, cmd.kind.Status());
      if Busy(closed, t) {
        CloseBusyHolds(db, t, cmd.kind.Status());
        HoldsConserved(db, closed);
        DrainTaskHolds(closed, t);
        DrainKeeps(closed, DrainTaskLeases(closed, t));
        HoldsConserved(closed, DrainTaskLeases(closed, t));
      } else {
        EndIdleKeeps(db, t, cmd.kind.Status());
        PromoteConserves(SetStatus(ReleaseTaskLeases(closed, t), t, cmd.kind.Status()), ctx.observedAt);
      }
    }
  }

  lemma SameBusy(db: Database, t: TaskKey, terminal: TaskStatus)
    requires t in db.tasks
    ensures t in CloseTask(db, t, terminal).tasks && (Busy(CloseTask(db, t, terminal), t) <==> Busy(db, t))
    ensures t in ReleaseTaskLeases(CloseTask(db, t, terminal), t).tasks
  {
  }

  lemma EndIdleKeeps(db: Database, t: TaskKey, terminal: TaskStatus)
    requires Inv(db) && t in db.tasks && terminal.IsTerminal() && !Busy(db, t)
    requires t in ReleaseTaskLeases(CloseTask(db, t, terminal), t).tasks
    ensures Inv(SetStatus(ReleaseTaskLeases(CloseTask(db, t, terminal), t), t, terminal))
  {
    hide Inv, Owned, CloseTask, ReleaseTaskLeases, Busy, HasTaskLease, HasPending;
    var c := ReleaseTaskLeases(CloseTask(db, t, terminal), t);
    CloseKeeps(db, t, terminal);
    SameBusy(db, t, terminal);
    ReleaseIdleKeeps(CloseTask(db, t, terminal), t);
    EndedOwned(db, t, terminal);
    Parts(c);
    StatusOwned(c, t, terminal);
    TasksKeep(c, SetStatus(c, t, terminal));
  }

  // ---------------------------------------------------------------- reads

  lemma ReadsKeep(d: Database, e: Database)
    requires Inv(d) && e == d.(readAttempts := e.readAttempts)
    ensures Inv(e)
  {
    hide IdsUsed, Owned, Singles, Apart, QueueSound, WritesSound, EvidenceSound;
    LapseIds(d, e);
    LapseEvidence(d, e);
    CoreKeeps(d, e);
  }

  lemma CanonicalFiled(workspace: Name, os: seq<Observation>)
    ensures Canonical(workspace, os).Ok? ==> Filed(workspace, Canonical(workspace, os).value)
  {
    CanonicalKeys(workspace, os);
  }

  lemma StartReadSafe(db: Database, ctx: Context, cmd: Command)
    requires Inv(db) && Conserved(db) && cmd.ReadStart?
    ensures Safe(StartRead(db, ctx, cmd))
  {
    hide Inv, Conserved, Sync, Canonical, Filed;
    var r := StartRead(db, ctx, cmd);
    if r.Accepted? {
      CanonicalFiled(ctx.workspace, cmd.observations);
      var os := Canonical(ctx.workspace, cmd.observations).value;
      SyncKeeps(db, ctx.workspace, os);
      ReadsKeep(Sync(db, ctx.workspace, os), r.db);
      SamePlaces(db, r.db);
    }
  }

  lemma CurrentRecorded(db: Database, workspace: Name, rs: ResourceSet)
    ensures CurrentObservations(db, workspace, rs).Ok? ==> Recorded(db, workspace, CurrentObservations(db, workspace, rs).value)
  {
  }

  lemma CompleteReadSafe(db: Database, ctx: Context, cmd: Command)
    requires Inv(db) && Conserved(db) && cmd.ReadComplete?
    ensures Safe(CompleteRead(db, ctx, cmd))
  {
    hide Inv, Conserved, Canonical, CurrentObservations, SameStates, RecordRead, Recorded;
    var r := CompleteRead(db, ctx, cmd);
    if r.Accepted? {
      var read := db.readAttempts[cmd.readId];
      ReadsKeep(db, FinishRead(db, cmd.readId, ReadFailed));
      SamePlaces(db, FinishRead(db, cmd.readId, ReadFailed));
      if r.response.readStatus.ReadCompleted? {
        var done := FinishRead(db, cmd.readId, ReadCompleted);
        var current := CurrentObservations(db, ctx.workspace, KeySet(read.started)).value;
        ReadsKeep(db, done);
        CurrentRecorded(db, ctx.workspace, KeySet(read.started));
        SameRecorded(db, done, ctx.workspace, current);
        RecordReadFiles(done, ctx.Task(), current, read.startedAt);
        FilesKeeps(done, r.db, ctx.Task(), current);
        SamePlaces(db, r.db);
      }
    }
  }

  lemma SameRecorded(d: Database, e: Database, workspace: Name, os: ObservationSet)
    requires Recorded(d, workspace, os) && e.resources == d.resources
    ensures Recorded(e, workspace, os)
  {
  }

  // --------------------------------------------------------------- leases

  lemma WithActivatedDoes(db: Database, ctx: Context, cmd: Command)
    requires cmd.LeaseActivate? && cmd.batch in db.requests && db.requests[cmd.batch].state.Offered?
    requires db.requests[cmd.batch].task == ctx.Task() && db.requests[cmd.batch].agent == ctx.agent
    ensures var revoked := Revoke(db, Keys(ctx.workspace, db.requests[cmd.batch].resources), Some(ctx.Task()));
            Activates(revoked, WithActivated(db, ctx, cmd), cmd.batch)
    ensures HoldsOn(db, WithActivated(db, ctx, cmd)) || cmd.batch in db.leases
  {
    hide Revoke;
    RevokeSettles(db, Keys(ctx.workspace, db.requests[cmd.batch].resources), Some(ctx.Task()));
  }

  lemma ActivateLeaseSafe(db: Database, ctx: Context, cmd: Command)
    requires Inv(db) && Conserved(db) && cmd.LeaseActivate?
    ensures Safe(ActivateLease(db, ctx, cmd))
  {
    hide Inv, Conserved, CurrentObservations, HasCurrentEvidence, Conflict, HasTaskLease, WithActivated, Revoke;
    var r := ActivateLease(db, ctx, cmd);
    if r.Accepted? && r.response.active {
      RequestAgent(db, cmd.batch);
      var keys := Keys(ctx.workspace, db.requests[cmd.batch].resources);
      var revoked := Revoke(db, keys, Some(ctx.Task()));
      RevokeKeeps(db, keys, Some(ctx.Task()));
      RevokeSettles(db, keys, Some(ctx.Task()));
      WithActivatedDoes(db, ctx, cmd);
      ActivateKeeps(revoked, r.db, cmd.batch);
      HoldsConserved(db, r.db);
    }
  }

  lemma RequestAgent(db: Database, b: Uuid)
    requires Inv(db) && b in db.requests
    ensures db.requests[b].task in db.tasks && db.requests[b].agent == db.tasks[db.requests[b].task].agent
  {
    hide IdsUsed, TasksSound, LeasesOwned, Singles, Apart, QueueSound, WritesSound, EvidenceSound;
  }

  /** An idle lease has no executing write. */
  lemma DropIdleKeeps(db: Database, b: Uuid)
    requires Inv(db) && b in db.leases && db.leases[b].slots == map[]
    ensures Inv(DropLease(db, b))
  {
    assert DropsSome(db, DropLease(db, b)) by {
      hide IdsUsed, Owned, Singles, Apart, QueueSound, EvidenceSound;
      forall a | a in db.attempts && db.attempts[a].status.Executing? ensures db.attempts[a].batch != b {
        assert db.attempts[a].start[0] in db.attempts[a].start;
      }
    }
    hide *;
    DropKeeps(db, DropLease(db, b));
  }

  lemma DrainHolds(d: Database, e: Database)
    requires DrainsSome(d, e)
    ensures HoldsOn(d, e)
  {
  }

  lemma DrainOneHolds(db: Database, b: Uuid)
    requires b in db.leases
    ensures DrainsSome(db, DrainLease(db, b)) && HoldsOn(db, DrainLease(db, b))
  {
    assert DrainsSome(db, DrainLease(db, b));
    DrainHolds(db, DrainLease(db, b));
    hide *;
  }

  lemma ReleaseLeaseSafe(db: Database, ctx: Context, cmd: Command)
    requires Inv(db) && Conserved(db) && cmd.LeaseRelease?
    ensures Safe(ReleaseLease(db, ctx, cmd))
  {
    hide Inv, Conserved, Promote, DropLease, DrainLease;
    var r := ReleaseLease(db, ctx, cmd);
    if r.Accepted? {
      if db.leases[cmd.batch].slots == map[] {
        DropIdleKeeps(db, cmd.batch);
        PromoteConserves(DropLease(db, cmd.batch), ctx.observedAt);
      } else {
        DrainOneHolds(db, cmd.batch);
        DrainKeeps(db, DrainLease(db, cmd.batch));
        HoldsConserved(db, DrainLease(db, cmd.batch));
      }
    }
  }

  // --------------------------------------------------------------- writes

  /** Promotion touches nothing but the request table. */
  ghost predicate OnlyRequests(d: Database, e: Database) {
    && e == d.(requests := e.requests, nextUuid := e.nextUuid)
    && d.nextUuid <= e.nextUuid
    && e.requests.Keys == d.requests.Keys
    && forall b :: b in d.requests ==>
         && e.requests[b].task == d.requests[b].task && e.requests[b].sequence == d.requests[b].sequence
         && e.requests[b].resources == d.requests[b].resources
         && (e.requests[b].Pending() ==> d.requests[b].Pending())
         && (e.requests[b].state.Queued? ==> e.requests[b] == d.requests[b])
  }

  lemma LapseFrame(d: Database, e: Database, b: Uuid)
    requires LapsesOne(d, e, b)
    ensures OnlyRequests(d, e)
  {
  }

  lemma OfferFrame(d: Database, e: Database, b: Uuid)
    requires OffersOne(d, e, b)
    ensures OnlyRequests(d, e)
  {
  }

  lemma PromoteOneFrame(db: Database, b: Uuid, now: Instant)
    requires b in db.requests && db.requests[b].state.Queued? && db.requests[b].task in db.tasks
    ensures OnlyRequests(db, PromoteOne(db, b, now))
  {
    assert OnlyRequests(db, db);
    hide *;
    if Lapsed(db, b, now) {
      PromoteOneLapses(db, b, now);
      LapseFrame(db, PromoteOne(db, b, now), b);
    } else if Blocked(db, b) {
      PromoteOneStays(db, b, now);
    } else {
      PromoteOneOffers(db, b, now);
      OfferFrame(db, PromoteOne(db, b, now), b);
    }
  }

  lemma OnlyRequestsTransitive(c: Database, d: Database, e: Database)
    requires OnlyRequests(c, d) && OnlyRequests(d, e)
    ensures OnlyRequests(c, e)
  {
  }

  lemma {:induction false} PromoteFrame(db: Database, n: nat, now: Instant)
    ensures OnlyRequests(db, PromoteThrough(db, n, now))
  {
    hide PromoteOne, OnlyRequests;
    if n == 0 {
      ExpireOffersFrame(db, now);
    } else {
      var d := PromoteThrough(db, n - 1, now);
      PromoteFrame(db, n - 1, now);
      if exists b :: Waits(d, n, b) {
        var b :| Waits(d, n, b) && PromoteNumber(d, n, now) == PromoteOne(d, b, now);
        PromoteOneFrame(d, b, now);
        OnlyRequestsTransitive(db, d, PromoteOne(d, b, now));
      }
    }
  }

  lemma ExpireOffersFrame(db: Database, now: Instant)
    ensures OnlyRequests(db, ExpireOffers(db, now))
  {
  }

  lemma OneLeasePerTask(db: Database, b: Uuid, c: Uuid)
    requires Inv(db) && b in db.leases && c in db.leases && db.leases[b].task == db.leases[c].task
    ensures b == c
  {
    hide IdsUsed, TasksSound, RequestsOwned, Apart, QueueSound, WritesSound, EvidenceSound;
  }

  lemma ReleaseIsDrop(db: Database, t: TaskKey)
    requires Inv(db) && HasTaskLease(db, t)
    ensures ReleaseTaskLeases(db, t) == DropLease(db, TaskLease(db, t))
  {
    hide Inv;
    var b := TaskLease(db, t);
    forall c | c in db.leases && db.leases[c].task == t ensures b == c { OneLeasePerTask(db, b, c); }
    assert ReleaseTaskLeases(db, t).leases == DropLease(db, b).leases;
  }

  lemma ReleaseUnusedKeeps(db: Database, t: TaskKey)
    requires Inv(db) && HasTaskLease(db, t) && db.leases[TaskLease(db, t)].slots == map[]
    ensures Inv(ReleaseTaskLeases(db, t))
  {
    hide *;
    ReleaseIsDrop(db, t);
    DropIdleKeeps(db, TaskLease(db, t));
  }

  lemma UnionCovers(db: Database, t: TaskKey, requested: ResourceSet)
    ensures HasTaskLease(db, t) ==> forall i :: i in db.leases[TaskLease(db, t)].resources ==>
              i in Union(db, t, requested) && Union(db, t, requested)[i] == db.leases[TaskLease(db, t)].resources[i]
    ensures HasPending(db, t) ==> db.requests[PendingRequest(db, t)].resources.Keys <= Union(db, t, requested).Keys
    ensures forall i :: i in Union(db, t, requested) ==>
              || i in requested
              || (HasTaskLease(db, t) && i in db.leases[TaskLease(db, t)].resources)
              || (HasPending(db, t) && i in db.requests[PendingRequest(db, t)].resources)
  {
    hide HasTaskLease, HasPending, TaskLease, PendingRequest;
  }

  lemma HistoryRecorded(db: Database, t: TaskKey, os: ObservationSet, i: ResourceId)
    requires EvidenceRecorded(db) && HasHistoricalEvidence(db, t, os) && Filed(t.workspace, os) && i in os
    ensures ResourceRef(t.workspace, i) in db.resources
  {
  }

  lemma UnionRecorded(db: Database, t: TaskKey, requested: ResourceSet)
    requires Inv(db)
    requires forall i :: i in requested ==> ResourceRef(t.workspace, i) in db.resources
    ensures forall i :: i in Union(db, t, requested) ==> ResourceRef(t.workspace, i) in db.resources
  {
    hide IdsUsed, Owned, Singles, Apart, QueueSound, WritesSound, EvidenceRecorded, EvidenceCurrent, ReadsClearOfWrites;
    UnionCovers(db, t, requested);
    hide Union;
  }

  lemma OnePending(db: Database, t: TaskKey, b: Uuid)
    requires Inv(db) && b in db.requests && db.requests[b].task == t && db.requests[b].Pending()
    ensures HasPending(db, t) && PendingRequest(db, t) == b
  {
    hide IdsUsed, Owned, Apart, QueueSound, WritesSound, EvidenceSound;
  }

  lemma HoldingWaitsForNothing(db: Database, t: TaskKey)
    requires Inv(db) && HasTaskLease(db, t)
    ensures !HasPending(db, t)
  {
    hide IdsUsed, Owned, Apart, QueueSound, WritesSound, EvidenceSound;
  }

  /** The state in which a task joins the queue: its lease, if it had one, is gone. */
  lemma FreedMayQueue(db: Database, ctx: Context, rs: ResourceSet, now: Instant)
    requires Inv(db) && OwnerError(db, ctx, true).None?
    requires HasTaskLease(db, ctx.Task()) && db.leases[TaskLease(db, ctx.Task())].slots == map[]
    requires forall i :: i in rs ==> ResourceRef(ctx.workspace, i) in db.resources
    ensures Inv(Promote(ReleaseTaskLeases(db, ctx.Task()), now))
    ensures MayQueue(Promote(ReleaseTaskLeases(db, ctx.Task()), now), ctx, rs)
  {
    hide Inv, PromoteThrough;
    var t := ctx.Task();
    var d := ReleaseTaskLeases(db, t);
    ReleaseUnusedKeeps(db, t);
    PromoteKeeps(d, now);
    PromoteFrame(d, d.queueSequence, now);
    HoldingWaitsForNothing(db, t);
    hide Promote;
    assert !HasTaskLease(Promote(d, now), t);
  }

  lemma WaitingMayQueue(db: Database, ctx: Context, requested: ResourceSet)
    requires Inv(db) && OwnerError(db, ctx, true).None? && !HasTaskLease(db, ctx.Task())
    requires forall i :: i in requested ==> ResourceRef(ctx.workspace, i) in db.resources
    ensures MayQueue(db, ctx, Union(db, ctx.Task(), requested))
  {
    hide Inv, Union;
    UnionRecorded(db, ctx.Task(), requested);
    UnionCovers(db, ctx.Task(), requested);
    forall b | b in db.requests && db.requests[b].task == ctx.Task() && db.requests[b].Pending()
      ensures db.requests[b].resources.Keys <= Union(db, ctx.Task(), requested).Keys
    {
      OnePending(db, ctx.Task(), b);
    }
  }

  /** The task has reason to join the queue anew. */
  ghost predicate MustQueue(db: Database, t: TaskKey, reported: ObservationSet, union: ResourceSet) {
    && HasHistoricalEvidence(db, t, reported)
    && !(HasTaskLease(db, t) && db.leases[TaskLease(db, t)].slots != map[])
    && !(!HasTaskLease(db, t) && HasPending(db, t) && db.requests[PendingRequest(db, t)].resources == union)
  }

  lemma JoinQueueReady(db: Database, ctx: Context, cmd: Command, reported: ObservationSet)
    requires Inv(db) && cmd.WritePrepare? && OwnerError(db, ctx, true).None? && Filed(ctx.workspace, reported)
    requires MustQueue(db, ctx.Task(), reported, Union(db, ctx.Task(), KeySet(reported)))
    ensures HasTaskLease(db, ctx.Task()) ==> Inv(ReleaseTaskLeases(db, ctx.Task()))
    ensures var free := if HasTaskLease(db, ctx.Task()) then Promote(ReleaseTaskLeases(db, ctx.Task()), ctx.observedAt) else db;
            Inv(Enqueue(free, ctx, Union(db, ctx.Task(), KeySet(reported)), cmd.requestExpiresAt))
  {
    hide Inv, Union, Promote, Enqueue, MayQueue, HasTaskLease, HasPending, OwnerError, ReleaseTaskLeases;
    var t := ctx.Task();
    var union := Union(db, t, KeySet(reported));
    RequestedRecorded(db, t, reported);
    UnionRecorded(db, t, KeySet(reported));
    var free := if HasTaskLease(db, t) then Promote(ReleaseTaskLeases(db, t), ctx.observedAt) else db;
    if HasTaskLease(db, t) {
      ReleaseUnusedKeeps(db, t);
      FreedMayQueue(db, ctx, union, ctx.observedAt);
    } else {
      WaitingMayQueue(db, ctx, KeySet(reported));
    }
    EnqueueKeeps(free, ctx, union, cmd.requestExpiresAt);
  }

  lemma JoinQueueSafe(db: Database, ctx: Context, cmd: Command, reported: ObservationSet)
    requires Inv(db) && Conserved(db) && cmd.WritePrepare? && OwnerError(db, ctx, true).None?
    requires Filed(ctx.workspace, reported)
    ensures Safe(JoinQueue(db, ctx, cmd, reported, Union(db, ctx.Task(), KeySet(reported))))
  {
    hide Inv, Conserved, Union, Promote, Enqueue, HasTaskLease, HasPending, OwnerError, ReleaseTaskLeases;
    var t := ctx.Task();
    var union := Union(db, t, KeySet(reported));
    if MustQueue(db, t, reported, union) {
      var free := if HasTaskLease(db, t) then Promote(ReleaseTaskLeases(db, t), ctx.observedAt) else db;
      JoinQueueReady(db, ctx, cmd, reported);
      PromoteConserves(Enqueue(free, ctx, union, cmd.requestExpiresAt), ctx.observedAt);
    }
  }

  lemma RequestedRecorded(db: Database, t: TaskKey, reported: ObservationSet)
    requires Inv(db) && HasHistoricalEvidence(db, t, reported) && Filed(t.workspace, reported)
    ensures forall i :: i in KeySet(reported) ==> ResourceRef(t.workspace, i) in db.resources
  {
    hide IdsUsed, Owned, Singles, Apart, QueueSound, WritesSound, EvidenceCurrent, ReadsClearOfWrites, ResourcesRecorded;
    hide HasHistoricalEvidence, EvidenceRecorded;
    forall i | i in KeySet(reported) ensures ResourceRef(t.workspace, i) in db.resources {
      HistoryRecorded(db, t, reported, i);
    }
  }

  lemma LeaseOwner(db: Database, b: Uuid)
    requires Inv(db) && b in db.leases
    ensures db.leases[b].task in db.tasks && db.leases[b].agent == db.tasks[db.leases[b].task].agent
    ensures forall i :: i in db.leases[b].resources ==> ResourceRef(db.leases[b].task.workspace, i) in db.resources
    ensures b < db.nextUuid
  {
    hide TasksSound, RequestsOwned, Singles, Apart, QueueSound, WritesSound;
    hide EvidenceRecorded, EvidenceCurrent, ReadsClearOfWrites;
  }

  lemma RenewedLeaseGrants(db: Database, b: Uuid, ctx: Context, union: ResourceSet, version: nat, expiresAt: Instant)
    requires b in db.leases && b < db.nextUuid && db.leases[b].task == ctx.Task() && db.leases[b].agent == ctx.agent
    requires forall i :: i in db.leases[b].resources ==> i in union && union[i] == db.leases[b].resources[i]
    ensures Grants(db, db.(leases := db.leases[b := db.leases[b].(resources := union, version := version, expiresAt := expiresAt)]),
                   b, ctx, union)
  {
  }

  lemma OldLeaseGrants(db: Database, ctx: Context, union: ResourceSet, expiresAt: Instant)
    requires Inv(db) && OwnerError(db, ctx, true).None? && HasTaskLease(db, ctx.Task())
    requires forall i :: i in db.leases[TaskLease(db, ctx.Task())].resources ==>
               i in union && union[i] == db.leases[TaskLease(db, ctx.Task())].resources[i]
    ensures Grants(db, Grant(db, ctx, union, expiresAt), TaskLease(db, ctx.Task()), ctx, union)
  {
    hide Inv, Grants;
    var b := TaskLease(db, ctx.Task());
    var l := db.leases[b];
    LeaseOwner(db, b);
    if union.Keys != l.resources.Keys || l.expiresAt != expiresAt {
      RenewedLeaseGrants(db, b, ctx, union, l.version + 1, expiresAt);
    } else {
      assert union == l.resources;
      RenewedLeaseGrants(db, b, ctx, union, l.version, expiresAt);
      assert db.leases == db.leases[b := l.(resources := union, version := l.version, expiresAt := expiresAt)];
    }
  }

  lemma NewLeaseGrants(db: Database, ctx: Context, union: ResourceSet, expiresAt: Instant)
    requires IdsUsed(db) && !HasTaskLease(db, ctx.Task())
    ensures Grants(db, Grant(db, ctx, union, expiresAt), db.nextUuid, ctx, union)
  {
  }

  lemma GrantDoes(db: Database, ctx: Context, requested: ResourceSet, expiresAt: Instant)
    requires Inv(db) && OwnerError(db, ctx, true).None?
    ensures var union := Union(db, ctx.Task(), requested);
            Grants(db, Grant(db, ctx, union, expiresAt), GrantBatch(db, ctx.Task()), ctx, union)
  {
    hide Inv, Grants, Grant, Union, IdsUsed;
    var union := Union(db, ctx.Task(), requested);
    if HasTaskLease(db, ctx.Task()) {
      UnionCovers(db, ctx.Task(), requested);
      OldLeaseGrants(db, ctx, union, expiresAt);
    } else {
      Parts(db);
      NewLeaseGrants(db, ctx, union, expiresAt);
    }
  }

  lemma UncontendedMayGrant(db: Database, ctx: Context, union: ResourceSet)
    requires Inv(db) && OwnerError(db, ctx, true).None? && !Contended(db, ctx, union)
    requires GrantError(db, ctx, union).None?
    ensures MayGrant(db, ctx, union)
  {
    hide Inv, Conflict, QueueConflict, AgentSlotOccupied, HasPending;
    if HasTaskLease(db, ctx.Task()) {
      LeaseOwner(db, TaskLease(db, ctx.Task()));
    }
  }

  lemma OverlapSymmetric()
    ensures forall k, l :: Overlap(k, l) ==> Overlap(l, k)
  {
  }

  lemma RevokeClears(db: Database, b: Uuid, keys: set<ResourceKey>)
    requires b in db.leases && Keys(db.leases[b].task.workspace, db.leases[b].resources) <= keys
    ensures Revoke(db, keys, Some(db.leases[b].task)).leases == db.leases
    ensures b in Revoke(db, keys, Some(db.leases[b].task)).leases
    ensures Cleared(Revoke(db, keys, Some(db.leases[b].task)), b)
  {
    var t := db.leases[b].task;
    var e := Revoke(db, keys, Some(t));
    RevokeSettles(db, keys, Some(t));
    OverlapSymmetric();
    hide Overlap, Revoke;
    forall k, i | && k in e.evidence && e.evidence[k].valid && e.evidence[k].task != e.leases[b].task
                  && i in e.leases[b].resources
      ensures !Overlap(e.evidence[k].observation.key, Key(t.workspace, e.leases[b].resources, i))
    {
      assert Key(t.workspace, e.leases[b].resources, i) in keys;
    }
  }

  lemma StartIds(db: Database, workspace: Name, reported: seq<Observation>, rs: ResourceSet)
    requires CurrentObservations(db, workspace, rs).Ok?
    requires forall o :: o in reported ==> o.key.id in rs
    ensures var start := StartOf(reported, CurrentObservations(db, workspace, rs).value);
            |start| == |reported| && forall o :: o in start ==> o.key.id in rs
  {
  }

  lemma BeginWriteDoes(db: Database, ctx: Context, cmd: Command, batch: Uuid, requested: ResourceSet, start: seq<Observation>)
    requires cmd.WritePrepare? && batch in db.leases && db.leases[batch].task == ctx.Task()
    requires requested.Keys <= db.leases[batch].resources.Keys && requested.Keys !! db.leases[batch].slots.Keys
    requires start != [] && forall o :: o in start ==> o.key.id in requested
    ensures Begins(db, BeginWrite(db, ctx, cmd, batch, requested, start), batch, db.nextUuid, requested.Keys)
  {
  }

  lemma GrantBeginHolds(d: Database, g: Database, r: Database, e: Database, b: Uuid, a: Uuid, ctx: Context,
                        rs: ResourceSet, ids: set<ResourceId>)
    requires Grants(d, g, b, ctx, rs) && CoreSame(g, r) && Begins(r, e, b, a, ids)
    requires b in d.leases ==> d.leases[b].agent == ctx.agent
    ensures HoldsOn(d, e)
  {
  }

  lemma DirectWriteSafe(db: Database, ctx: Context, cmd: Command, reported: ObservationSet)
    requires Inv(db) && Conserved(db) && cmd.WritePrepare? && OwnerError(db, ctx, true).None?
    requires Canonical(ctx.workspace, cmd.current) == Ok(reported) && reported != map[]
    requires !Contended(db, ctx, Union(db, ctx.Task(), KeySet(reported)))
    ensures Safe(DirectWrite(db, ctx, cmd, reported, Union(db, ctx.Task(), KeySet(reported))))
  {
    hide Inv, Conserved, Union, Contended, CurrentObservations, SameStates, HasCurrentEvidence, GrantError, GrantBatch;
    hide Grant, Grants, Revoke, BeginWrite, Begins, Cleared, MayGrant, OwnerError, Canonical, StartOf, CoreSame;
    var t := ctx.Task();
    var requested := KeySet(reported);
    var union := Union(db, t, requested);
    var r := DirectWrite(db, ctx, cmd, reported, union);
    if r.Accepted? && r.response.Ready? {
      var batch := GrantBatch(db, t);
      var granted := Grant(db, ctx, union, cmd.leaseExpiresAt);
      var keys := Keys(ctx.workspace, union) + Keys(ctx.workspace, requested);
      var revoked := Revoke(granted, keys, Some(t));
      var current := CurrentObservations(db, ctx.workspace, requested).value;
      GrantDoes(db, ctx, requested, cmd.leaseExpiresAt);
      GrantsLease(db, granted, batch, ctx, union);
      UncontendedMayGrant(db, ctx, union);
      GrantKeeps(db, granted, batch, ctx, union);
      RevokeKeeps(granted, keys, Some(t));
      RevokeSettles(granted, keys, Some(t));
      RevokeClears(granted, batch, keys);
      CanonicalKeys(ctx.workspace, cmd.current);
      StartIds(db, ctx.workspace, cmd.current, requested);
      UnionHasRequested(db, t, requested);
      BeginWriteDoes(revoked, ctx, cmd, batch, requested, StartOf(cmd.current, current));
      BeginKeeps(revoked, r.db, batch, revoked.nextUuid, requested.Keys);
      GrantBeginHolds(db, granted, revoked, r.db, batch, revoked.nextUuid, ctx, union, requested.Keys);
      HoldsConserved(db, r.db);
    }
  }

  lemma GrantsLease(d: Database, e: Database, b: Uuid, ctx: Context, rs: ResourceSet)
    requires Inv(d) && Grants(d, e, b, ctx, rs) && OwnerError(d, ctx, true).None?
    ensures b in e.leases && e.leases[b].task == ctx.Task() && e.leases[b].resources == rs
    ensures b in d.leases ==> d.leases[b].agent == ctx.agent
  {
    hide Inv;
    if b in d.leases { LeaseOwner(d, b); }
  }

  lemma UnionHasRequested(db: Database, t: TaskKey, requested: ResourceSet)
    ensures requested.Keys <= Union(db, t, requested).Keys
  {
    hide HasTaskLease, HasPending;
  }

  lemma PrepareWriteSafe(db: Database, ctx: Context, cmd: Command)
    requires Inv(db) && Conserved(db) && cmd.WritePrepare?
    ensures Safe(PrepareWrite(db, ctx, cmd))
  {
    hide Inv, Conserved, Union, Contended, JoinQueue, DirectWrite, Canonical, ValidateOperationStart, Filed;
    CanonicalFiled(ctx.workspace, cmd.current);
    var reported := Canonical(ctx.workspace, cmd.current);
    if PrepareWrite(db, ctx, cmd).Accepted? {
      if Contended(db, ctx, Union(db, ctx.Task(), KeySet(reported.value))) {
        JoinQueueSafe(db, ctx, cmd, reported.value);
      } else {
        DirectWriteSafe(db, ctx, cmd, reported.value);
      }
    }
  }

  // ----------------------------------------------------------- completion

  lemma SyncedRecorded(db: Database, workspace: Name, os: ObservationSet)
    requires Filed(workspace, os)
    ensures Recorded(Sync(db, workspace, os), workspace, Synced(db, os))
  {
    hide Sync;
    forall i | i in os { SyncRows(db, workspace, os, ResourceRef(workspace, i)); }
  }

  lemma VerdictKeeps(db: Database, t: TaskKey, attempt: WriteAttempt, verdict: WriteStatus, actual: ObservationSet)
    requires Inv(db) && Filed(t.workspace, actual)
    ensures Inv(RecordVerdict(db, t, attempt, verdict, actual))
    ensures CoreSame(db, RecordVerdict(db, t, attempt, verdict, actual))
  {
    hide Inv, Sync, Synced, Revoke, RecordOwnWrite, Filed, Recorded;
    if verdict.WriteCompleted? {
      var synced := Sync(db, t.workspace, actual);
      SyncKeeps(db, t.workspace, actual);
      SyncedRecorded(db, t.workspace, actual);
      RecordOwnWriteFiles(synced, t, Synced(db, actual));
      FilesKeeps(synced, RecordOwnWrite(synced, t, Synced(db, actual)), t, Synced(db, actual));
    } else if verdict.Uncertain? {
      RevokeKeeps(db, KeysOf(attempt.start), None);
      RevokeSettles(db, KeysOf(attempt.start), None);
    }
  }

  lemma SettleDoes(db: Database, a: Uuid, status: WriteStatus)
    requires a in db.attempts && db.attempts[a].status.Executing? && !status.Executing? && !status.Uncertain?
    ensures Settles(db, Settle(db, a, status), a)
  {
  }

  lemma SettleUncertainDoes(db: Database, a: Uuid)
    requires a in db.attempts && db.attempts[a].status.Executing? && db.attempts[a].batch in db.leases
    ensures Settles(db, DrainLease(Settle(db, a, Uncertain), db.attempts[a].batch), a)
  {
  }

  lemma SettlesHolds(d: Database, e: Database, a: Uuid)
    requires Settles(d, e, a)
    ensures HoldsOn(d, e)
  {
  }

  lemma ExecutingHasLease(db: Database, a: Uuid)
    requires Inv(db) && a in db.attempts && db.attempts[a].status.Executing?
    ensures db.attempts[a].batch in db.leases
  {
    hide IdsUsed, Owned, Singles, Apart, QueueSound, EvidenceSound;
  }

  lemma DrainingWaitsForNothing(db: Database, t: TaskKey)
    requires Inv(db) && t in db.tasks && db.tasks[t].status.Draining?
    ensures !HasPending(db, t) && (db.tasks[t].terminal.Some? ==> db.tasks[t].terminal.value.IsTerminal())
  {
    hide IdsUsed, LeasesOwned, Singles, Apart, QueueSound, WritesSound, EvidenceSound;
  }

  lemma ReleasedHasNone(db: Database, t: TaskKey)
    ensures !HasTaskLease(ReleaseTaskLeases(db, t), t)
    ensures HasPending(ReleaseTaskLeases(db, t), t) ==> HasPending(db, t)
    ensures ReleaseTaskLeases(db, t).tasks == db.tasks
  {
  }

  lemma FinishKeeps(db: Database, t: TaskKey)
    requires Inv(db)
    ensures Inv(FinishDraining(db, t))
  {
    hide Inv, Busy, ReleaseTaskLeases, HasTaskLease, HasPending, Owned;
    if FinishDue(db, t) {
      var d := ReleaseTaskLeases(db, t);
      ReleaseIdleKeeps(db, t);
      DrainingWaitsForNothing(db, t);
      ReleasedHasNone(db, t);
      Parts(d);
      StatusOwned(d, t, db.tasks[t].terminal.value);
      TasksKeep(d, SetStatus(d, t, db.tasks[t].terminal.value));
    }
  }

  /** What is left of the lease once the attempt has settled. */
  lemma LeftKeeps(d: Database, a: Uuid, verdict: WriteStatus)
    requires Inv(d) && Conserved(d) && a in d.attempts && d.attempts[a].status.Executing? && !verdict.Executing?
    ensures var batch := d.attempts[a].batch;
            var settled := Settle(d, a, verdict);
            if verdict.Uncertain? then Inv(DrainLease(settled, batch)) && Conserved(DrainLease(settled, batch))
            else Inv(settled) && Conserved(settled) && (ReleaseDue(settled, batch) ==> Inv(DropLease(settled, batch)))
  {
    hide Inv, Conserved, Settle, Settles, HoldsOn, DrainLease, DropLease;
    var batch := d.attempts[a].batch;
    var settled := Settle(d, a, verdict);
    if verdict.Uncertain? {
      ExecutingHasLease(d, a);
      SettleUncertainDoes(d, a);
      SettlesHolds(d, DrainLease(settled, batch), a);
      SettleKeeps(d, DrainLease(settled, batch), a);
      HoldsConserved(d, DrainLease(settled, batch));
    } else {
      SettleDoes(d, a, verdict);
      SettlesHolds(d, settled, a);
      SettleKeeps(d, settled, a);
      HoldsConserved(d, settled);
      if ReleaseDue(settled, batch) {
        DropIdleKeeps(settled, batch);
      }
    }
  }

  /** The tables once the verdict is recorded, the attempt settled and its lease
      drained, dropped or kept. */
  ghost function Left(db: Database, t: TaskKey, a: Uuid, verdict: WriteStatus, actual: ObservationSet): Database
    requires a in db.attempts && a in RecordVerdict(db, t, db.attempts[a], verdict, actual).attempts
  {
    var settled := Settle(RecordVerdict(db, t, db.attempts[a], verdict, actual), a, verdict);
    if verdict.Uncertain? then DrainLease(settled, db.attempts[a].batch)
    else if ReleaseDue(settled, db.attempts[a].batch) then DropLease(settled, db.attempts[a].batch)
    else settled
  }

  lemma LeftReady(db: Database, t: TaskKey, a: Uuid, verdict: WriteStatus, actual: ObservationSet)
    requires Inv(db) && Conserved(db) && a in db.attempts && db.attempts[a].status.Executing? && !verdict.Executing?
    requires Filed(t.workspace, actual)
    ensures a in RecordVerdict(db, t, db.attempts[a], verdict, actual).attempts
    ensures Inv(Left(db, t, a, verdict, actual)) && Inv(FinishDraining(Left(db, t, a, verdict, actual), t))
    ensures var settled := Settle(RecordVerdict(db, t, db.attempts[a], verdict, actual), a, verdict);
            verdict.Uncertain? || !ReleaseDue(settled, db.attempts[a].batch) ==> Conserved(Left(db, t, a, verdict, actual))
  {
    hide Inv, Conserved, Filed, RecordVerdict, Settle, DrainLease, DropLease, FinishDraining, ReleaseDue;
    var d := RecordVerdict(db, t, db.attempts[a], verdict, actual);
    VerdictKeeps(db, t, db.attempts[a], verdict, actual);
    SamePlaces(db, d);
    LeftKeeps(d, a, verdict);
    FinishKeeps(Left(db, t, a, verdict, actual), t);
  }

  lemma CompleteWriteSafe(db: Database, ctx: Context, cmd: Command)
    requires Inv(db) && Conserved(db) && cmd.WriteComplete?
    ensures Safe(CompleteWrite(db, ctx, cmd))
  {
    hide Inv, Conserved, Canonical, Filed, WriteVerdict, RecordVerdict, Settle, DrainLease, DropLease, FinishDue, Promote;
    hide FinishDraining, ReleaseDue;
    var r := CompleteWrite(db, ctx, cmd);
    if r.Accepted? {
      var t := ctx.Task();
      var attempt := db.attempts[cmd.attempt];
      CanonicalFiled(ctx.workspace, cmd.post);
      var actual := Canonical(ctx.workspace, cmd.post).value;
      var verdict := WriteVerdict(attempt, cmd, actual, Canonical(ctx.workspace, cmd.expected).value);
      VerdictFinal(attempt, cmd, actual, Canonical(ctx.workspace, cmd.expected).value);
      LeftReady(db, t, cmd.attempt, verdict, actual);
      var left := Left(db, t, cmd.attempt, verdict, actual);
      var settled := Settle(RecordVerdict(db, t, attempt, verdict, actual), cmd.attempt, verdict);
      if (!verdict.Uncertain? && ReleaseDue(settled, attempt.batch)) || FinishDue(left, t) {
        PromoteConserves(FinishDraining(left, t), ctx.observedAt);
      } else {
        NotFinished(left, t);
      }
    }
  }

  lemma NotFinished(db: Database, t: TaskKey)
    requires !FinishDue(db, t)
    ensures FinishDraining(db, t) == db
  {
  }

  lemma VerdictFinal(attempt: WriteAttempt, cmd: Command, actual: ObservationSet, expected: ObservationSet)
    requires cmd.WriteComplete?
    ensures !WriteVerdict(attempt, cmd, actual, expected).Executing?
  {
    hide ValidateOperationTransition, Unmoved;
  }

  // ---------------------------------------------------------- the wrapper

  lemma OperateSafe(db: Database, ctx: Context, cmd: Command)
    requires Inv(db) && Conserved(db)
    ensures Safe(Operate(db, ctx, cmd))
  {
    hide Safe, Inv, Conserved, StartTask, Heartbeat, EndTask, StartRead, CompleteRead, PrepareWrite;
    hide ActivateLease, ReleaseLease, CompleteWrite;
    match cmd
    case TaskStart(_, _, _, _) => StartTaskSafe(db, ctx, cmd);
    case TaskHeartbeat(_, _) => HeartbeatSafe(db, ctx, cmd);
    case TaskEnd(_, _) => EndTaskSafe(db, ctx, cmd);
    case ReadStart(_, _, _) => StartReadSafe(db, ctx, cmd);
    case ReadComplete(_, _, _, _, _, _, _) => CompleteReadSafe(db, ctx, cmd);
    case WritePrepare(_, _, _, _, _, _) => PrepareWriteSafe(db, ctx, cmd);
    case LeaseActivate(_, _, _, _) => ActivateLeaseSafe(db, ctx, cmd);
    case LeaseRelease(_) => ReleaseLeaseSafe(db, ctx, cmd);
    case WriteComplete(_, _, _, _, _, _, _) => CompleteWriteSafe(db, ctx, cmd);
  }

  lemma ReceiptsKeep(d: Database, e: Database)
    requires Inv(d) && Conserved(d) && e == d.(receipts := e.receipts)
    ensures Inv(e) && Conserved(e)
  {
    hide IdsUsed, Owned, Singles, Apart, QueueSound, WritesSound, EvidenceSound, Conserved;
    LapseIds(d, e);
    LapseEvidence(d, e);
    CoreKeeps(d, e);
    SamePlaces(d, e);
  }

  /** A command, accepted or not, ends in a sound state. */
  lemma ExecuteSafe(db: Database, ctx: Context, cmd: Command)
    requires Inv(db) && Conserved(db)
    ensures Inv(Execute(db, ctx, cmd).0) && Conserved(Execute(db, ctx, cmd).0)
  {
    hide Inv, Conserved, Sweep, Operate;
    SweepKeeps(db, ctx.observedAt);
    var r := Operate(Sweep(db, ctx.observedAt), ctx, cmd);
    OperateSafe(Sweep(db, ctx.observedAt), ctx, cmd);
    if ctx.Valid() && ReceiptKeyOf(ctx) !in db.receipts && r.Accepted? {
      ReceiptsKeep(r.db, Execute(db, ctx, cmd).0);
    }
  }
}