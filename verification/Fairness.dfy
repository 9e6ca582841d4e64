/** Nobody overtakes: neither an offer nor a lease is ever given out over the head of
    a request that has waited longer. */
module Fairness {
  import opened Basics
  import opened Resources
  import opened Operations
  import opened Tables
  import opened Sweeps
  import opened ReadEvidence
  import opened Commands
  import opened Invariants
  import opened SweepProofs
  import opened EvidenceProofs
  import opened GrantProofs
  import opened Safety
  import opened Runs
  import opened ExactlyOnce

  /** The lease `b` is new in `e`, or covers other resources than it did in `d`. */
  predicate Gains(d: Database, e: Database, b: Uuid) {
    b in e.leases && !(b in d.leases && e.leases[b].resources == d.leases[b].resources)
  }

  ghost predicate NothingGained(d: Database, e: Database) {
    forall b :: b in e.leases ==> b in d.leases && e.leases[b].resources == d.leases[b].resources
  }

  /** Whatever a lease gained overlaps nobody who waits. */
  ghost predicate OverNobody(d: Database, e: Database) {
    forall b | Gains(d, e, b) :: !QueueConflict(e, e.leases[b].task, e.leases[b].resources)
  }

  /** In this step the pending request `b` has become a lease of just its own resources. */
  predicate Activated(d: Database, e: Database, b: Uuid) {
    && b in d.requests && d.requests[b].Pending()
    && b in e.requests && e.requests[b].state.Activated?
    && b in e.leases && e.leases[b].resources == e.requests[b].resources
  }

  /** Whatever a lease gained overlaps no waiting request of another task. The one
      exception is a request activated in this very step, which may overlap requests
      that joined the queue after it. */
  ghost predicate Fair(d: Database, e: Database) {
    forall b, c |
      && Gains(d, e, b)
      && c in e.requests && e.requests[c].state.Queued? && e.requests[c].task != e.leases[b].task
      && Clash(e.leases[b].task.workspace, e.leases[b].resources, e.requests[c].task.workspace, e.requests[c].resources)
      :: Activated(d, e, b) && e.requests[b].sequence < e.requests[c].sequence
  }

  lemma OverNobodyFair(d: Database, e: Database)
    requires OverNobody(d, e)
    ensures Fair(d, e)
  {
    hide Clash;
  }

  lemma NothingGainedFair(d: Database, e: Database)
    requires NothingGained(d, e)
    ensures Fair(d, e)
  {
    hide Clash;
  }

  /** What is pending was pending before. */
  ghost predicate PendingBefore(c: Database, d: Database) {
    forall b :: b in d.requests && d.requests[b].Pending() ==> b in c.requests && c.requests[b].Pending()
  }

  lemma FairAfter(c: Database, d: Database, e: Database)
    requires NothingGained(c, d) && PendingBefore(c, d) && Fair(d, e)
    ensures Fair(c, e)
  {
    hide Clash;
    forall b | Gains(c, e, b) ensures Gains(d, e, b) || (b in d.leases && b in c.leases) { }
  }

  // ---------------------------------------------------------------- sweeps

  lemma PromoteGainsNothing(db: Database, now: Instant)
    ensures NothingGained(db, Promote(db, now))
  {
    hide PromoteThrough;
    PromoteFrame(db, db.queueSequence, now);
  }

  lemma ThenPromoteGainsNothing(d: Database, e: Database, now: Instant)
    requires NothingGained(d, e)
    ensures NothingGained(d, Promote(e, now))
  {
    hide Promote;
    PromoteGainsNothing(e, now);
  }

  lemma ExpiryGainsNothing(db: Database, now: Instant)
    ensures NothingGained(db, ExpireTasksAndLeases(db, now))
  {
    hide Busy, TaskDue;
  }

  lemma SweepGainsNothing(db: Database, now: Instant)
    ensures NothingGained(db, Sweep(db, now))
  {
    hide ExpireTasksAndLeases, Promote, NothingGained;
    ExpiryGainsNothing(db, now);
    ThenPromoteGainsNothing(db, ExpireTasksAndLeases(db, now), now);
  }

  lemma ExpiryPendingBefore(db: Database, now: Instant)
    ensures PendingBefore(db, ExpireTasksAndLeases(db, now))
  {
    hide Busy, TaskDue;
  }

  lemma SweepPendingBefore(db: Database, now: Instant)
    ensures PendingBefore(db, Sweep(db, now))
  {
    hide ExpireTasksAndLeases, PromoteThrough;
    var d := ExpireTasksAndLeases(db, now);
    ExpiryPendingBefore(db, now);
    PromoteFrame(d, d.queueSequence, now);
  }

  lemma MaintainGainsNothing(db: Database, now: Instant)
    ensures NothingGained(db, Maintain(db, now))
  {
    hide ExpireTasksAndLeases, Promote, NothingGained;
    var d := ExpireTasksAndLeases(ExpireOffers(db, now), now);
    ExpiryGainsNothing(ExpireOffers(db, now), now);
    var e := DrainOverdueWrites(ForgetInactive(d), now);
    assert NothingGained(db, e) by { DrainOverdueGainsNothing(db, d, now); }
    ThenPromoteGainsNothing(db, e, now);
  }

  lemma DrainOverdueGainsNothing(db: Database, d: Database, now: Instant)
    requires NothingGained(ExpireOffers(db, now), d)
    ensures NothingGained(db, DrainOverdueWrites(ForgetInactive(d), now))
  {
  }

  // -------------------------------------------------------------- commands

  ghost predicate FairOutcome(db: Database, outcome: Outcome) {
    outcome.Accepted? ==> Fair(db, outcome.db)
  }

  lemma TaskCommandsFair(db: Database, ctx: Context, cmd: Command)
    requires cmd.TaskStart? || cmd.TaskHeartbeat?
    ensures FairOutcome(db, Operate(db, ctx, cmd))
  {
    hide Fair;
    var r := Operate(db, ctx, cmd);
    if r.Accepted? { NothingGainedFair(db, r.db); }
  }

  lemma DropGainsNothing(db: Database, d: Database, b: Uuid)
    requires NothingGained(db, d)
    ensures NothingGained(db, DropLease(d, b)) && NothingGained(db, DrainLease(d, b))
  {
  }

  lemma TaskLeasesGainNothing(db: Database, d: Database, t: TaskKey)
    requires NothingGained(db, d)
    ensures NothingGained(db, ReleaseTaskLeases(d, t)) && NothingGained(db, DrainTaskLeases(d, t))
    ensures ReleaseTaskLeases(d, t).tasks == d.tasks
  {
  }

  lemma SameLeasesGainNothing(db: Database, d: Database, e: Database)
    requires NothingGained(db, d) && e.leases == d.leases
    ensures NothingGained(db, e)
  {
  }

  lemma EndTaskFair(db: Database, ctx: Context, cmd: Command)
    requires cmd.TaskEnd?
    ensures FairOutcome(db, EndTask(db, ctx, cmd))
  {
    hide Fair, Promote, Busy, NothingGained, ReleaseTaskLeases, DrainTaskLeases;
    var r := EndTask(db, ctx, cmd);
    NothingGainedSelf(db);
    if r.Accepted? {
      var t := ctx.Task();
      if !db.tasks[t].status.IsTerminal() {
        var closed := CloseTask(db, t, cmd.kind.Status());
        SameLeasesGainNothing(db, db, closed);
        TaskLeasesGainNothing(db, closed, t);
        if !Busy(closed, t) {
          var ended := SetStatus(ReleaseTaskLeases(closed, t), t, cmd.kind.Status());
          SameLeasesGainNothing(db, ReleaseTaskLeases(closed, t), ended);
          ThenPromoteGainsNothing(db, ended, ctx.observedAt);
        }
      }
      NothingGainedFair(db, r.db);
    }
  }

  lemma StartReadLeases(db: Database, ctx: Context, cmd: Command)
    requires cmd.ReadStart? && StartRead(db, ctx, cmd).Accepted?
    ensures StartRead(db, ctx, cmd).db.leases == db.leases
  {
    hide Canonical, OwnerError, ChangedKeys, NextRow, Hit;
  }

  lemma RecordReadLeases(db: Database, t: TaskKey, os: ObservationSet, startedAt: Instant)
    ensures RecordRead(db, t, os, startedAt).leases == db.leases
  {
  }

  lemma CompleteReadLeases(db: Database, ctx: Context, cmd: Command)
    requires cmd.ReadComplete? && CompleteRead(db, ctx, cmd).Accepted?
    ensures CompleteRead(db, ctx, cmd).db.leases == db.leases
  {
    hide Canonical, CurrentObservations, SameStates, RecordRead;
    var r := CompleteRead(db, ctx, cmd);
    if r.response.readStatus.ReadCompleted? {
      var read := db.readAttempts[cmd.readId];
      RecordReadLeases(FinishRead(db, cmd.readId, ReadCompleted), ctx.Task(),
                       CurrentObservations(db, ctx.workspace, KeySet(read.started)).value, read.startedAt);
    }
  }

  lemma ReadsFair(db: Database, ctx: Context, cmd: Command)
    requires cmd.ReadStart? || cmd.ReadComplete?
    ensures FairOutcome(db, Operate(db, ctx, cmd))
  {
    hide Fair, StartRead, CompleteRead, NothingGained;
    var r := Operate(db, ctx, cmd);
    if r.Accepted? {
      if cmd.ReadStart? { StartReadLeases(db, ctx, cmd); } else { CompleteReadLeases(db, ctx, cmd); }
      NothingGainedSelf(db);
      SameLeasesGainNothing(db, db, r.db);
      NothingGainedFair(db, r.db);
    }
  }

  lemma ReleaseLeaseFair(db: Database, ctx: Context, cmd: Command)
    requires cmd.LeaseRelease?
    ensures FairOutcome(db, ReleaseLease(db, ctx, cmd))
  {
    hide Fair, Promote, DropLease, DrainLease, NothingGained, HasTaskLease;
    var r := ReleaseLease(db, ctx, cmd);
    if r.Accepted? {
      NothingGainedSelf(db);
      DropGainsNothing(db, db, cmd.batch);
      ThenPromoteGainsNothing(db, DropLease(db, cmd.batch), ctx.observedAt);
      NothingGainedFair(db, r.db);
    }
  }

  lemma JoinQueueFair(db: Database, ctx: Context, cmd: Command, reported: ObservationSet, union: ResourceSet)
    requires cmd.WritePrepare?
    ensures FairOutcome(db, JoinQueue(db, ctx, cmd, reported, union))
  {
    hide Fair, Promote, HasHistoricalEvidence, HasPending;
    var t := ctx.Task();
    var r := JoinQueue(db, ctx, cmd, reported, union);
    if r.db != db {
      ThenPromoteGainsNothing(db, ReleaseTaskLeases(db, t), ctx.observedAt);
      var free := if HasTaskLease(db, t) then Promote(ReleaseTaskLeases(db, t), ctx.observedAt) else db;
      ThenPromoteGainsNothing(db, Enqueue(free, ctx, union, cmd.requestExpiresAt), ctx.observedAt);
    }
    NothingGainedFair(db, r.db);
  }

  lemma BeginOverNobody(d: Database, g: Database, v: Database, e: Database, b: Uuid, a: Uuid, ctx: Context,
                        rs: ResourceSet, ids: set<ResourceId>)
    requires Grants(d, g, b, ctx, rs) && !QueueConflict(d, ctx.Task(), rs)
    requires v.leases == g.leases && v.requests == g.requests && Begins(v, e, b, a, ids)
    ensures OverNobody(d, e)
  {
    hide Clash;
  }

  /** A direct grant, of a new lease or of more for an old one, overlaps nobody who waits. */
  lemma DirectWriteFair(db: Database, ctx: Context, cmd: Command, reported: ObservationSet)
    requires Inv(db) && cmd.WritePrepare? && OwnerError(db, ctx, true).None?
    requires Canonical(ctx.workspace, cmd.current) == Ok(reported) && reported != map[]
    requires !Contended(db, ctx, Union(db, ctx.Task(), KeySet(reported)))
    ensures var r := DirectWrite(db, ctx, cmd, reported, Union(db, ctx.Task(), KeySet(reported)));
            r.Accepted? ==> OverNobody(db, r.db) && Fair(db, r.db)
  {
    hide Inv, Union, CurrentObservations, SameStates, HasCurrentEvidence, GrantError, GrantBatch, Fair, OverNobody;
    hide Grant, Grants, Revoke, BeginWrite, Begins, Cleared, OwnerError, Canonical, StartOf, Conflict, QueueConflict;
    var t := ctx.Task();
    var requested := KeySet(reported);
    var union := Union(db, t, requested);
    var r := DirectWrite(db, ctx, cmd, reported, union);
    if r.Accepted? && r.response.Ready? {
      var batch := GrantBatch(db, t);
      var granted := Grant(db, ctx, union, cmd.leaseExpiresAt);
      var keys := Keys(ctx.workspace, union) + Keys(ctx.workspace, requested);
      var revoked := Revoke(granted, keys, Some(t));
      GrantDoes(db, ctx, requested, cmd.leaseExpiresAt);
      GrantsLease(db, granted, batch, ctx, union);
      RevokeSettles(granted, keys, Some(t));
      CanonicalKeys(ctx.workspace, cmd.current);
      StartIds(db, ctx.workspace, cmd.current, requested);
      UnionHasRequested(db, t, requested);
      var start := StartOf(cmd.current, CurrentObservations(db, ctx.workspace, requested).value);
      BeginWriteDoes(revoked, ctx, cmd, batch, requested, start);
      BeginOverNobody(db, granted, revoked, r.db, batch, revoked.nextUuid, ctx, union, requested.Keys);
      OverNobodyFair(db, r.db);
    } else if r.Accepted? {
      assert OverNobody(db, r.db) by { NobodyOverSelf(db); }
      NothingGainedFair(db, r.db);
    }
  }

  lemma PrepareWriteFair(db: Database, ctx: Context, cmd: Command)
    requires Inv(db) && cmd.WritePrepare?
    ensures FairOutcome(db, PrepareWrite(db, ctx, cmd))
  {
    hide Inv, Union, Contended, JoinQueue, DirectWrite, FairOutcome, ValidateOperationStart, Canonical, WithinWindow;
    var reported := Canonical(ctx.workspace, cmd.current);
    if PrepareWrite(db, ctx, cmd).Accepted? {
      var union := Union(db, ctx.Task(), KeySet(reported.value));
      if Contended(db, ctx, union) {
        JoinQueueFair(db, ctx, cmd, reported.value, union);
      } else {
        DirectWriteFair(db, ctx, cmd, reported.value);
        FairMeans(db, DirectWrite(db, ctx, cmd, reported.value, union));
      }
    } else {
      RejectedFair(db, PrepareWrite(db, ctx, cmd));
    }
  }

  lemma FairMeans(db: Database, outcome: Outcome)
    requires outcome.Accepted? ==> Fair(db, outcome.db)
    ensures FairOutcome(db, outcome)
  {
    hide Fair;
  }

  lemma NobodyOverSelf(db: Database)
    ensures OverNobody(db, db)
  {
  }

  lemma RejectedFair(db: Database, outcome: Outcome)
    requires outcome.Rejected?
    ensures FairOutcome(db, outcome)
  {
  }

  /** An activated lease overlaps only requests that came after its own, because
      the offer it came from did. */
  lemma ActivationFair(d: Database, v: Database, e: Database, b: Uuid)
    requires QueueSound(d) && v.leases == d.leases && v.requests == d.requests && Activates(v, e, b)
    ensures Fair(d, e)
  {
    hide Clash;
  }

  lemma ActivateLeaseFair(db: Database, ctx: Context, cmd: Command)
    requires Inv(db) && cmd.LeaseActivate?
    ensures FairOutcome(db, ActivateLease(db, ctx, cmd))
  {
    hide Inv, CurrentObservations, HasCurrentEvidence, Conflict, HasTaskLease, WithActivated, Revoke, Fair, Activates;
    var r := ActivateLease(db, ctx, cmd);
    if r.Accepted? && r.response.active {
      RequestAgent(db, cmd.batch);
      var keys := Keys(ctx.workspace, db.requests[cmd.batch].resources);
      RevokeSettles(db, keys, Some(ctx.Task()));
      WithActivatedDoes(db, ctx, cmd);
      Parts(db);
      ActivationFair(db, Revoke(db, keys, Some(ctx.Task())), r.db, cmd.batch);
    } else if r.Accepted? {
      NothingGainedFair(db, r.db);
    }
  }

  lemma SettledGainsNothing(db: Database, t: TaskKey, attempt: WriteAttempt, a: Uuid, verdict: WriteStatus, actual: ObservationSet)
    requires a in db.attempts
    ensures a in RecordVerdict(db, t, attempt, verdict, actual).attempts
    ensures NothingGained(db, Settle(RecordVerdict(db, t, attempt, verdict, actual), a, verdict))
  {
    hide Hit, NextRow, Changes;
  }

  lemma FinishGainsNothing(db: Database, left: Database, t: TaskKey)
    requires NothingGained(db, left)
    ensures NothingGained(db, FinishDraining(left, t))
  {
    hide FinishDue, ReleaseTaskLeases, NothingGained;
    TaskLeasesGainNothing(db, left, t);
    if FinishDue(left, t) {
      SameLeasesGainNothing(db, ReleaseTaskLeases(left, t), FinishDraining(left, t));
    }
  }

  lemma CompleteWriteFair(db: Database, ctx: Context, cmd: Command)
    requires cmd.WriteComplete?
    ensures FairOutcome(db, CompleteWrite(db, ctx, cmd))
  {
    hide Canonical, WriteVerdict, RecordVerdict, Settle, DrainLease, DropLease, FinishDue, Promote;
    hide FinishDraining, ReleaseDue, Fair, NothingGained;
    var r := CompleteWrite(db, ctx, cmd);
    if r.Accepted? {
      var t := ctx.Task();
      var attempt := db.attempts[cmd.attempt];
      var actual := Canonical(ctx.workspace, cmd.post).value;
      var verdict := WriteVerdict(attempt, cmd, actual, Canonical(ctx.workspace, cmd.expected).value);
      SettledGainsNothing(db, t, attempt, cmd.attempt, verdict, actual);
      var settled := Settle(RecordVerdict(db, t, attempt, verdict, actual), cmd.attempt, verdict);
      DropGainsNothing(db, settled, attempt.batch);
      var drop := !verdict.Uncertain? && ReleaseDue(settled, attempt.batch);
      var left :=
        if verdict.Uncertain? then DrainLease(settled, attempt.batch)
        else if drop then DropLease(settled, attempt.batch)
        else settled;
      FinishGainsNothing(db, left, t);
      ThenPromoteGainsNothing(db, FinishDraining(left, t), ctx.observedAt);
      NothingGainedFair(db, r.db);
    }
  }

  lemma OperateFair(db: Database, ctx: Context, cmd: Command)
    requires Inv(db)
    ensures FairOutcome(db, Operate(db, ctx, cmd))
  {
    hide Inv, FairOutcome, StartTask, Heartbeat, EndTask, StartRead, CompleteRead, PrepareWrite, ActivateLease, ReleaseLease;
    hide CompleteWrite;
    match cmd
    case TaskStart(_, _, _, _) => TaskCommandsFair(db, ctx, cmd);
    case TaskHeartbeat(_, _) => TaskCommandsFair(db, ctx, cmd);
    case TaskEnd(_, _) => EndTaskFair(db, ctx, cmd);
    case ReadStart(_, _, _) => ReadsFair(db, ctx, cmd);
    case ReadComplete(_, _, _, _, _, _, _) => ReadsFair(db, ctx, cmd);
    case WritePrepare(_, _, _, _, _, _) => PrepareWriteFair(db, ctx, cmd);
    case LeaseActivate(_, _, _, _) => ActivateLeaseFair(db, ctx, cmd);
    case LeaseRelease(_) => ReleaseLeaseFair(db, ctx, cmd);
    case WriteComplete(_, _, _, _, _, _, _) => CompleteWriteFair(db, ctx, cmd);
  }

  lemma SameFair(d: Database, e: Database, f: Database)
    requires Fair(d, e) && f.leases == e.leases && f.requests == e.requests
    ensures Fair(d, f)
  {
    hide Clash;
  }

  lemma StepFair(db: Database, event: Event)
    requires Inv(db)
    ensures Fair(db, Step(db, event))
  {
    hide Inv, Fair, Operate, Sweep, Maintain, NothingGained, PendingBefore;
    NothingGainedFair(db, db) by { NothingGainedSelf(db); }
    match event
    case Maintenance(now) =>
      MaintainGainsNothing(db, now);
      NothingGainedFair(db, Maintain(db, now));
    case Request(ctx, cmd) =>
      var swept := Sweep(db, ctx.observedAt);
      SweepKeeps(db, ctx.observedAt);
      SweepGainsNothing(db, ctx.observedAt);
      SweepPendingBefore(db, ctx.observedAt);
      OperateFair(swept, ctx, cmd);
      if Operate(swept, ctx, cmd).Accepted? {
        FairAfter(db, swept, Operate(swept, ctx, cmd).db);
        if Step(db, event) != db {
          SameFair(db, Operate(swept, ctx, cmd).db, Step(db, event));
        }
      }
  }

  lemma NothingGainedSelf(db: Database)
    ensures NothingGained(db, db)
  {
  }

  /** At every step of every run: no live offer overlaps a request that has waited
      longer, and no lease gains a resource over anyone who waits, unless it was activated
      in that step and the other joined the queue later. */
  lemma NobodyOvertakes(run: seq<Event>, i: nat)
    requires i < |run|
    ensures NoOvertaking(StateAfter(run[..i + 1]))
    ensures Fair(StateAfter(run[..i]), StateAfter(run[..i + 1]))
  {
    hide StateAfter, Step, Fair, Conserved;
    RunSafe(run[..i]);
    RunSafe(run[..i + 1]);
    StateNext(run, i);
    StepFair(StateAfter(run[..i]), run[i]);
    hide IdsUsed, Owned, Singles, Apart, SequencesDistinct, NoOvertaking, ChainsRise, WritesSound, EvidenceSound;
  }
}
