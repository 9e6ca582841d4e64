/** What the tables hold after a task that wants to write has been answered
    (crates/stateful-store/src/store_v2.rs). */
module PrepareEffects {
  import opened Basics
  import opened Resources
  import opened Operations
  import opened Tables
  import opened Sweeps
  import opened Commands
  import opened Invariants
  import opened EvidenceProofs
  import opened GrantProofs
  import opened Safety
  import opened Reports
  import opened Deadlines
  import opened PrepareAnswers
  import opened OperationMeaning
  import opened Runs
  import opened ExactlyOnce

  // --------------------------------------------------------------- queueing

  /** The task's place in the queue is for everything it wants. */
  ghost predicate WaitsFor(db: Database, t: TaskKey, b: Uuid, rs: ResourceSet) {
    InQueue(db, t, b) && db.requests[b].resources == rs
  }

  /** A new place at the end of the queue, and nothing left of what the task had: no lease,
      and no other place. */
  ghost predicate NewPlace(d: Database, e: Database, ctx: Context, b: Uuid, expiresAt: Instant) {
    && b !in d.requests && b in e.requests
    && e.requests[b].agent == ctx.agent && e.requests[b].expiresAt == expiresAt
    && (forall c :: c in d.requests ==> d.requests[c].sequence < e.requests[b].sequence)
    && (forall c :: c in e.leases <==> c in d.leases && d.leases[c].task != ctx.Task())
    && (forall c :: c in e.leases ==> e.leases[c] == d.leases[c])
    && (forall c :: InQueue(d, ctx.Task(), c) ==> c in e.requests && e.requests[c].state == Superseded && e.requests[c].supersededBy == Some(b))
  }

  /** The tables a task joins the queue in. */
  ghost function Freeing(db: Database, t: TaskKey, now: Instant): Database {
    if HasTaskLease(db, t) then Promote(ReleaseTaskLeases(db, t), now) else db
  }

  lemma FreeingFrame(db: Database, t: TaskKey, now: Instant)
    ensures var free := Freeing(db, t, now);
            && free.leases == ReleaseTaskLeases(db, t).leases && free.tasks == db.tasks
            && free.queueSequence == db.queueSequence && db.nextUuid <= free.nextUuid
            && free.requests.Keys == db.requests.Keys
            && (forall c :: c in db.requests ==> free.requests[c].task == db.requests[c].task && free.requests[c].sequence == db.requests[c].sequence)
            && (!HasTaskLease(db, t) ==> free == db)
  {
    hide PromoteThrough, HasTaskLease;
    var d := ReleaseTaskLeases(db, t);
    PromoteFrame(d, d.queueSequence, now);
    if !HasTaskLease(db, t) { NothingReleased(db, t); }
  }

  lemma NothingReleased(db: Database, t: TaskKey)
    requires !HasTaskLease(db, t)
    ensures ReleaseTaskLeases(db, t).leases == db.leases
  {
  }

  lemma QueuedStays(db: Database, ctx: Context, rs: ResourceSet, expiresAt: Instant)
    requires Inv(Enqueue(db, ctx, rs, expiresAt)) && ctx.Task() in db.tasks && db.tasks[ctx.Task()].status == Active
    requires ctx.observedAt < expiresAt
    ensures var e := Promote(Enqueue(db, ctx, rs, expiresAt), ctx.observedAt);
            && WaitsFor(e, ctx.Task(), db.nextUuid, rs) && db.nextUuid in e.requests
            && e.requests[db.nextUuid].agent == ctx.agent && e.requests[db.nextUuid].expiresAt == expiresAt
            && e.requests[db.nextUuid].sequence == db.queueSequence + 1
            && e.leases == db.leases
  {
    hide Inv, Promote, Replaced;
    var queued := Enqueue(db, ctx, rs, expiresAt);
    PromoteFate(queued, ctx.observedAt, db.nextUuid);
    Deadlines.PromoteKnows(queued, ctx.observedAt);
  }

  lemma QueuedSupersedes(db: Database, ctx: Context, rs: ResourceSet, expiresAt: Instant, c: Uuid)
    requires Inv(Enqueue(db, ctx, rs, expiresAt)) && InQueue(db, ctx.Task(), c) && c != db.nextUuid
    ensures var e := Promote(Enqueue(db, ctx, rs, expiresAt), ctx.observedAt);
            c in e.requests && e.requests[c].state == Superseded && e.requests[c].supersededBy == Some(db.nextUuid)
  {
    hide Inv, Promote;
    var queued := Enqueue(db, ctx, rs, expiresAt);
    PromoteFate(queued, ctx.observedAt, c);
  }

  /** The task keeps the place it has exactly if that is for the very same things. */
  ghost predicate KeepsPlace(db: Database, t: TaskKey, b: Uuid, rs: ResourceSet) {
    (forall c :: !HoldsLease(db, t, c)) && WaitsFor(db, t, b, rs)
  }

  lemma KeepsPlaceMeant(db: Database, t: TaskKey, rs: ResourceSet)
    requires Inv(db)
    ensures !HasTaskLease(db, t) && HasPending(db, t) && db.requests[PendingRequest(db, t)].resources == rs
            <==> exists b :: KeepsPlace(db, t, b, rs)
    ensures !HasTaskLease(db, t) && HasPending(db, t) && db.requests[PendingRequest(db, t)].resources == rs
            ==> KeepsPlace(db, t, PendingRequest(db, t), rs)
  {
    hide Inv, HasTaskLease, HasPending, InQueue, HoldsLease;
    LeaseMeant(db, t);
    PendingMeant(db, t);
    if b :| KeepsPlace(db, t, b, rs) {
      assert InQueue(db, t, b);
      assert b == PendingRequest(db, t);
    }
    if !HasTaskLease(db, t) && HasPending(db, t) && db.requests[PendingRequest(db, t)].resources == rs {
      assert InQueue(db, t, PendingRequest(db, t));
      assert KeepsPlace(db, t, PendingRequest(db, t), rs);
    }
  }

  lemma JoinsNew(db: Database, ctx: Context, cmd: Command, reported: ObservationSet, rs: ResourceSet)
    requires Inv(db) && cmd.WritePrepare? && OwnerError(db, ctx, true).None? && Filed(ctx.workspace, reported)
    requires rs == Union(db, ctx.Task(), KeySet(reported)) && MustQueue(db, ctx.Task(), reported, rs)
    requires ctx.observedAt < cmd.requestExpiresAt
    ensures var r := JoinQueue(db, ctx, cmd, reported, rs);
            && r.Accepted? && r.response.QueuedAs?
            && WaitsFor(r.db, ctx.Task(), r.response.batch, rs)
            && NewPlace(db, r.db, ctx, r.response.batch, cmd.requestExpiresAt)
  {
    hide Inv, Union, HasHistoricalEvidence, HasTaskLease, HasPending, Filed, Promote, Enqueue, ReleaseTaskLeases, WaitsFor;
    var t := ctx.Task();
    var free := Freeing(db, t, ctx.observedAt);
    JoinQueueReady(db, ctx, cmd, reported);
    FreeingFrame(db, t, ctx.observedAt);
    QueuedStays(free, ctx, rs, cmd.requestExpiresAt);
    var e := Promote(Enqueue(free, ctx, rs, cmd.requestExpiresAt), ctx.observedAt);
    forall c | InQueue(db, t, c)
      ensures c in e.requests && e.requests[c].state == Superseded && e.requests[c].supersededBy == Some(free.nextUuid)
    {
      RequestBelow(db, c);
      PendingMeant(db, t);
      LeaseMeant(db, t);
      if HasTaskLease(db, t) { HoldingWaitsForNothing(db, t); assert false; }
      QueuedSupersedes(free, ctx, rs, cmd.requestExpiresAt, c);
    }
    forall c | c in db.requests ensures c < db.nextUuid && db.requests[c].sequence <= db.queueSequence { RequestBelow(db, c); }
    NewPlaceMade(db, e, ctx, free.nextUuid, cmd.requestExpiresAt);
  }

  lemma RequestBelow(db: Database, c: Uuid)
    requires Inv(db) && c in db.requests
    ensures c < db.nextUuid && db.requests[c].sequence <= db.queueSequence
  {
    hide TasksSound, LeasesOwned, Singles, Apart, QueueSound, WritesSound, EvidenceSound;
  }

  lemma NewPlaceMade(d: Database, e: Database, ctx: Context, b: Uuid, expiresAt: Instant)
    requires forall c :: c in d.requests ==> c < d.nextUuid && d.requests[c].sequence <= d.queueSequence
    requires d.nextUuid <= b && b in e.requests && e.requests[b].agent == ctx.agent && e.requests[b].expiresAt == expiresAt
    requires e.requests[b].sequence == d.queueSequence + 1 && e.leases == ReleaseTaskLeases(d, ctx.Task()).leases
    requires forall c :: InQueue(d, ctx.Task(), c) ==>
               c in e.requests && e.requests[c].state == Superseded && e.requests[c].supersededBy == Some(b)
    ensures NewPlace(d, e, ctx, b, expiresAt)
  {
    hide InQueue;
  }

  /** A task that is queued has a place, and it is for everything the task wants: the one it
      had if that was already for the very same things, a new one at the end otherwise. */
  lemma QueuedLeaves(db: Database, ctx: Context, cmd: Command, rs: ResourceSet)
    requires Inv(db) && cmd.WritePrepare? && Wants(db, ctx.Task(), cmd.current, rs)
    requires PrepareWrite(db, ctx, cmd).Accepted? && PrepareWrite(db, ctx, cmd).response.QueuedAs?
    ensures var e, b := PrepareWrite(db, ctx, cmd).db, PrepareWrite(db, ctx, cmd).response.batch;
            && WaitsFor(e, ctx.Task(), b, rs)
            && (if exists c :: KeepsPlace(db, ctx.Task(), c, rs) then e == db && KeepsPlace(db, ctx.Task(), b, rs)
                else NewPlace(db, e, ctx, b, cmd.requestExpiresAt))
  {
    hide Inv, Union, Contended, JoinQueue, DirectWrite, Canonical, ValidateOperationStart, Wants, HasTaskLease, HasPending;
    hide MustWait, AllSeen, AllCurrent, AllRecorded, MayBegin, WritesAlready, ListsOwn, KeySet, Holds, Tidy, MayStart, Filed;
    hide KeepsPlace, NewPlace, HasHistoricalEvidence;
    var t := ctx.Task();
    PrepareAnswer(db, ctx, cmd, rs);
    CanonicalExact(ctx.workspace, cmd.current);
    var reported := Canonical(ctx.workspace, cmd.current).value;
    UnionMeant(db, t, cmd.current, reported, rs);
    MustWaitMeant(db, ctx, rs);
    CanonicalFiled(ctx.workspace, cmd.current);
    SeenMeant(db, t, cmd.current, reported);
    WritesMeant(db, t);
    KeepsPlaceMeant(db, t, rs);
    if MustQueue(db, t, reported, rs) {
      JoinsNew(db, ctx, cmd, reported, rs);
    } else {
      PlaceKept(db, ctx, cmd, reported, rs);
    }
  }

  lemma PlaceKept(db: Database, ctx: Context, cmd: Command, reported: ObservationSet, rs: ResourceSet)
    requires cmd.WritePrepare? && HasHistoricalEvidence(db, ctx.Task(), reported)
    requires !HasTaskLease(db, ctx.Task()) && HasPending(db, ctx.Task())
    requires db.requests[PendingRequest(db, ctx.Task())].resources == rs
    requires KeepsPlace(db, ctx.Task(), PendingRequest(db, ctx.Task()), rs)
    ensures JoinQueue(db, ctx, cmd, reported, rs) == Accepted(db, QueuedAs(PendingRequest(db, ctx.Task())))
    ensures WaitsFor(db, ctx.Task(), PendingRequest(db, ctx.Task()), rs)
  {
    hide HasHistoricalEvidence, HasTaskLease, HasPending, Promote, Enqueue, ReleaseTaskLeases, InQueue, HoldsLease;
  }

  /** The task waits, and for everything reported. */
  ghost predicate CoveredInQueue(db: Database, t: TaskKey, b: Uuid, os: seq<Observation>) {
    InQueue(db, t, b) && forall o :: o in os ==> o.key.id in db.requests[b].resources
  }

  lemma PreparedCovers(db: Database, ctx: Context, cmd: Command)
    requires Inv(db) && cmd.WritePrepare?
    ensures var r := PrepareWrite(db, ctx, cmd);
            r.Accepted? && r.response.QueuedAs? ==> CoveredInQueue(r.db, ctx.Task(), r.response.batch, cmd.current)
  {
    hide PrepareWrite, Inv, Wants, NewPlace, KeepsPlace, Tidy;
    var r := PrepareWrite(db, ctx, cmd);
    if r.Accepted? && r.response.QueuedAs? {
      ProperTidy(db, ctx, cmd);
      var rs := WantsOne(db, ctx.Task(), cmd.current);
      QueuedLeaves(db, ctx, cmd, rs);
      WantsReported(db, ctx.Task(), cmd.current, rs);
    }
  }

  /** What the task asked for is part of what it wants. */
  lemma WantsReported(db: Database, t: TaskKey, os: seq<Observation>, rs: ResourceSet)
    requires Wants(db, t, os, rs)
    ensures forall o :: o in os ==> o.key.id in rs
  {
    hide HasAlready;
  }

  /** A client told that it is queued has, in the tables it leaves, a pending request of its
      task that covers everything it asked to write. */
  lemma QueuedMeansQueued(run: seq<Event>, i: nat)
    requires i < |run| && CarriesOut(run, i) && run[i].cmd.WritePrepare? && Reply(run, i).value.QueuedAs?
    ensures var e, b, t := StateAfter(run[..i + 1]), Reply(run, i).value.batch, run[i].ctx.Task();
            && b in e.requests && e.requests[b].task == t
            && (e.requests[b].state == Queued || e.requests[b].state == Offered)
            && forall o :: o in run[i].cmd.current ==> o.key.id in e.requests[b].resources
  {
    hide StateAfter, Execute, PrepareWrite, Sweep, Inv;
    CarriedOut(run, i);
    PreparedCovers(SweptFor(run, i), run[i].ctx, run[i].cmd);
  }

  lemma ProperTidy(db: Database, ctx: Context, cmd: Command)
    requires cmd.WritePrepare? && PrepareWrite(db, ctx, cmd).Accepted?
    ensures Tidy(ctx.workspace, cmd.current)
  {
    hide Union, Contended, JoinQueue, DirectWrite, Canonical, ValidateOperationStart, Tidy, Holds;
    CanonicalExact(ctx.workspace, cmd.current);
  }

  // --------------------------------------------------------------- permits

  /** The attempt starts from what was reported, in the order reported, at the generations on record. */
  ghost predicate StartsFrom(db: Database, workspace: Name, os: seq<Observation>, start: seq<Observation>) {
    && |start| == |os|
    && forall n :: 0 <= n < |os| ==>
         && ResourceRef(workspace, os[n].key.id) in db.resources
         && start[n] == os[n].(generation := db.resources[ResourceRef(workspace, os[n].key.id)].generation)
  }

  /** The slots of the lease after the write has begun. */
  ghost predicate SlotsTaken(d: Database, e: Database, cmd: Command, b: Uuid, a: Uuid)
    requires cmd.WritePrepare?
  {
    && b in e.leases
    && (forall i :: i in e.leases[b].slots <==>
          (b in d.leases && i in d.leases[b].slots) || exists o :: o in cmd.current && o.key.id == i)
    && (forall o :: o in cmd.current ==> e.leases[b].slots[o.key.id] == a)
    && (forall i :: b in d.leases && i in d.leases[b].slots ==> e.leases[b].slots[i] == d.leases[b].slots[i])
  }

  /** The task's lease, its own or a new one, now covers what it wants until the time asked
      for, and every reported resource is taken for the attempt. */
  ghost predicate LeaseGranted(d: Database, e: Database, ctx: Context, cmd: Command, rs: ResourceSet, b: Uuid, a: Uuid)
    requires cmd.WritePrepare?
  {
    var t := ctx.Task();
    && (if exists c :: HoldsLease(d, t, c) then HoldsLease(d, t, b) else b !in d.leases)
    && e.leases.Keys == d.leases.Keys + {b} && (forall c :: c in d.leases && c != b ==> e.leases[c] == d.leases[c])
    && e.leases[b].task == t && e.leases[b].agent == ctx.agent && e.leases[b].state == LeaseActive
    && e.leases[b].expiresAt == cmd.leaseExpiresAt && e.leases[b].resources == rs
    && SlotsTaken(d, e, cmd, b, a)
  }

  /** A new attempt under the permit's own names. */
  ghost predicate AttemptBegun(d: Database, e: Database, ctx: Context, cmd: Command, a: Uuid, permit: Uuid, b: Uuid)
    requires cmd.WritePrepare?
  {
    && a !in d.attempts && a in e.attempts && e.attempts == d.attempts[a := e.attempts[a]]
    && StartsFrom(d, ctx.workspace, cmd.current, e.attempts[a].start)
    && e.attempts[a] == WriteAttempt(ctx.Task(), permit, cmd.invocation, b, cmd.operation, e.attempts[a].start, Executing,
                                     cmd.attemptDeadline)
  }

  lemma StartOfMeant(db: Database, workspace: Name, os: seq<Observation>, reported: ObservationSet, current: ObservationSet)
    requires Holds(workspace, os, reported) && CurrentObservations(db, workspace, KeySet(reported)) == Ok(current)
    requires SameStates(current, reported)
    ensures forall o :: o in os ==> o.key.id in current
    ensures StartsFrom(db, workspace, os, StartOf(os, current))
  {
    hide CurrentObservations, AllRecorded;
    RecordedMeant(db, workspace, os, reported);
    forall n | 0 <= n < |os|
      ensures ResourceRef(workspace, os[n].key.id) in db.resources
      ensures StartOf(os, current)[n] == os[n].(generation := db.resources[ResourceRef(workspace, os[n].key.id)].generation)
    {
      assert os[n] in os;
      assert SameState(current[os[n].key.id], reported[os[n].key.id]);
    }
  }

  lemma NewLeaseExpires(db: Database, ctx: Context, union: ResourceSet, expiresAt: Instant)
    requires !HasTaskLease(db, ctx.Task())
    ensures db.nextUuid in Grant(db, ctx, union, expiresAt).leases
    ensures Grant(db, ctx, union, expiresAt).leases[db.nextUuid].expiresAt == expiresAt
  {
    hide HasTaskLease;
  }

  lemma OldLeaseExpires(db: Database, ctx: Context, union: ResourceSet, expiresAt: Instant)
    requires HasTaskLease(db, ctx.Task())
    ensures TaskLease(db, ctx.Task()) in Grant(db, ctx, union, expiresAt).leases
    ensures Grant(db, ctx, union, expiresAt).leases[TaskLease(db, ctx.Task())].expiresAt == expiresAt
  {
    hide HasTaskLease;
  }

  lemma GrantExpires(db: Database, ctx: Context, union: ResourceSet, expiresAt: Instant)
    ensures GrantBatch(db, ctx.Task()) in Grant(db, ctx, union, expiresAt).leases
    ensures Grant(db, ctx, union, expiresAt).leases[GrantBatch(db, ctx.Task())].expiresAt == expiresAt
  {
    hide HasTaskLease, Grant;
    if HasTaskLease(db, ctx.Task()) {
      OldLeaseExpires(db, ctx, union, expiresAt);
    } else {
      NewLeaseExpires(db, ctx, union, expiresAt);
    }
  }

  lemma BegunAttempt(db: Database, ctx: Context, cmd: Command, batch: Uuid, requested: ResourceSet, start: seq<Observation>)
    requires cmd.WritePrepare? && batch in db.leases
    ensures var e := BeginWrite(db, ctx, cmd, batch, requested, start);
            && db.nextUuid in e.attempts
            && e.attempts == db.attempts[db.nextUuid := WriteAttempt(ctx.Task(), db.nextUuid + 1, cmd.invocation, batch,
                                                                     cmd.operation, start, Executing, cmd.attemptDeadline)]
  {
  }

  lemma BegunSlots(d: Database, g: Database, v: Database, e: Database, b: Uuid, a: Uuid, ctx: Context, cmd: Command,
                   rs: ResourceSet, reported: ObservationSet)
    requires cmd.WritePrepare? && Holds(ctx.workspace, cmd.current, reported)
    requires Grants(d, g, b, ctx, rs) && v.leases == g.leases && Begins(v, e, b, a, reported.Keys)
    ensures SlotsTaken(d, e, cmd, b, a)
  {
    hide HasTaskLease;
    forall i ensures i in reported <==> exists o :: o in cmd.current && o.key.id == i {
      if i in reported { assert reported[i] in cmd.current; }
    }
  }

  lemma BegunOthers(d: Database, g: Database, v: Database, e: Database, b: Uuid, a: Uuid, ctx: Context, rs: ResourceSet,
                    ids: set<ResourceId>)
    requires Grants(d, g, b, ctx, rs) && v.leases == g.leases && Begins(v, e, b, a, ids)
    ensures e.leases.Keys == d.leases.Keys + {b} && (forall c :: c in d.leases && c != b ==> e.leases[c] == d.leases[c])
    ensures e.leases[b] == g.leases[b].(slots := e.leases[b].slots)
    ensures g.leases[b].task == ctx.Task() && g.leases[b].agent == ctx.agent && g.leases[b].resources == rs
    ensures b in d.leases ==> d.leases[b].task == ctx.Task()
  {
    hide HasTaskLease;
  }

  /** Granting and beginning, seen together. */
  lemma GrantedAndBegun(d: Database, g: Database, v: Database, e: Database, b: Uuid, a: Uuid, ctx: Context, cmd: Command,
                        rs: ResourceSet, reported: ObservationSet)
    requires cmd.WritePrepare? && Holds(ctx.workspace, cmd.current, reported)
    requires Grants(d, g, b, ctx, rs) && v.leases == g.leases && Begins(v, e, b, a, reported.Keys)
    requires b in g.leases && g.leases[b].expiresAt == cmd.leaseExpiresAt && g.leases[b].state == LeaseActive
    requires if HasTaskLease(d, ctx.Task()) then b in d.leases else b !in d.leases
    ensures LeaseGranted(d, e, ctx, cmd, rs, b, a)
  {
    hide HasTaskLease, Grants, Begins, Holds, SlotsTaken;
    LeaseMeant(d, ctx.Task());
    BegunSlots(d, g, v, e, b, a, ctx, cmd, rs, reported);
    BegunOthers(d, g, v, e, b, a, ctx, rs, reported.Keys);
  }

  lemma DirectWriteLeaves(db: Database, ctx: Context, cmd: Command, reported: ObservationSet, rs: ResourceSet)
    requires Inv(db) && cmd.WritePrepare? && OwnerError(db, ctx, true).None? && cmd.current != []
    requires Canonical(ctx.workspace, cmd.current) == Ok(reported) && Holds(ctx.workspace, cmd.current, reported)
    requires rs == Union(db, ctx.Task(), KeySet(reported)) && MayBegin(db, ctx, cmd)
    requires DirectWrite(db, ctx, cmd, reported, rs).Accepted? && DirectWrite(db, ctx, cmd, reported, rs).response.Ready?
    ensures var r := DirectWrite(db, ctx, cmd, reported, rs);
            && LeaseGranted(db, r.db, ctx, cmd, rs, r.response.batch, r.response.attempt)
            && AttemptBegun(db, r.db, ctx, cmd, r.response.attempt, r.response.permit, r.response.batch)
  {
    hide Inv, Union, CurrentObservations, SameStates, HasCurrentEvidence, GrantError, GrantBatch, HasTaskLease, MayBegin;
    hide Grant, Grants, ReadEvidence.Revoke, BeginWrite, Begins, OwnerError, Canonical, StartOf, Holds, LeaseGranted, StartsFrom;
    var t, requested := ctx.Task(), KeySet(reported);
    var r := DirectWrite(db, ctx, cmd, reported, rs);
    var batch := GrantBatch(db, t);
    var granted := Grant(db, ctx, rs, cmd.leaseExpiresAt);
    var keys := Keys(ctx.workspace, rs) + Keys(ctx.workspace, requested);
    var revoked := ReadEvidence.Revoke(granted, keys, Some(t));
    GrantDoes(db, ctx, requested, cmd.leaseExpiresAt);
    GrantsLease(db, granted, batch, ctx, rs);
    GrantExpires(db, ctx, rs, cmd.leaseExpiresAt);
    RevokeSettles(granted, keys, Some(t));
    CanonicalKeys(ctx.workspace, cmd.current);
    StartIds(db, ctx.workspace, cmd.current, requested);
    UnionHasRequested(db, t, requested);
    var current := CurrentObservations(db, ctx.workspace, requested).value;
    StartOfMeant(db, ctx.workspace, cmd.current, reported, current);
    var start := StartOf(cmd.current, current);
    BeginWriteDoes(revoked, ctx, cmd, batch, requested, start);
    BegunAttempt(revoked, ctx, cmd, batch, requested, start);
    GrantActive(db, granted, ctx, cmd, rs);
    GrantedAndBegun(db, granted, revoked, r.db, batch, revoked.nextUuid, ctx, cmd, rs, reported);
    GrantsFrame(db, granted, batch, ctx, rs);
    AttemptsBelow(db, revoked.nextUuid);
  }

  lemma GrantsFrame(d: Database, e: Database, b: Uuid, ctx: Context, rs: ResourceSet)
    requires Grants(d, e, b, ctx, rs)
    ensures d.nextUuid <= e.nextUuid && e.attempts == d.attempts
  {
  }

  lemma AttemptsBelow(db: Database, n: Uuid)
    requires Inv(db) && db.nextUuid <= n
    ensures n !in db.attempts
  {
    hide Owned, Singles, Apart, QueueSound, WritesSound, EvidenceSound;
  }

  lemma GrantActive(db: Database, granted: Database, ctx: Context, cmd: Command, rs: ResourceSet)
    requires cmd.WritePrepare? && Inv(db) && MayBegin(db, ctx, cmd)
    requires Grants(db, granted, GrantBatch(db, ctx.Task()), ctx, rs)
    ensures granted.leases[GrantBatch(db, ctx.Task())].state == LeaseActive
    ensures if HasTaskLease(db, ctx.Task()) then GrantBatch(db, ctx.Task()) in db.leases else GrantBatch(db, ctx.Task()) !in db.leases
  {
    hide Inv, HasTaskLease;
    LeaseMeant(db, ctx.Task());
    if HasTaskLease(db, ctx.Task()) {
      assert HoldsLease(db, ctx.Task(), TaskLease(db, ctx.Task()));
    } else {
      NoLeaseBelow(db, db.nextUuid);
    }
  }

  lemma NoLeaseBelow(db: Database, n: Uuid)
    requires Inv(db) && db.nextUuid <= n
    ensures n !in db.leases
  {
    hide Owned, Singles, Apart, QueueSound, WritesSound, EvidenceSound;
  }

  /** A task given a permit has a lease on everything it wants, with each reported resource
      taken by a new executing attempt that starts from what it reported. */
  lemma ReadyLeaves(db: Database, ctx: Context, cmd: Command, rs: ResourceSet)
    requires Inv(db) && cmd.WritePrepare? && Wants(db, ctx.Task(), cmd.current, rs)
    requires PrepareWrite(db, ctx, cmd).Accepted? && PrepareWrite(db, ctx, cmd).response.Ready?
    ensures var e, r := PrepareWrite(db, ctx, cmd).db, PrepareWrite(db, ctx, cmd).response;
            && LeaseGranted(db, e, ctx, cmd, rs, r.batch, r.attempt)
            && AttemptBegun(db, e, ctx, cmd, r.attempt, r.permit, r.batch)
  {
    hide Inv, Union, Contended, JoinQueue, DirectWrite, Canonical, ValidateOperationStart, Wants, HasTaskLease, HasPending;
    hide MustWait, AllSeen, AllCurrent, AllRecorded, MayBegin, WritesAlready, ListsOwn, KeySet, Holds, Tidy, MayStart;
    hide LeaseGranted, AttemptBegun;
    PrepareAnswer(db, ctx, cmd, rs);
    CanonicalExact(ctx.workspace, cmd.current);
    var reported := Canonical(ctx.workspace, cmd.current).value;
    UnionMeant(db, ctx.Task(), cmd.current, reported, rs);
    MustWaitMeant(db, ctx, rs);
    DirectWriteLeaves(db, ctx, cmd, reported, rs);
  }

  /** The same over runs, of the tables the permit leaves. */
  lemma PermitMeansWriting(run: seq<Event>, i: nat)
    requires i < |run| && CarriesOut(run, i) && run[i].cmd.WritePrepare? && Reply(run, i).value.Ready?
    ensures var e, r := StateAfter(run[..i + 1]), Reply(run, i).value;
            && AttemptBegun(SweptFor(run, i), e, run[i].ctx, run[i].cmd, r.attempt, r.permit, r.batch)
            && exists rs :: Wants(SweptFor(run, i), run[i].ctx.Task(), run[i].cmd.current, rs)
                         && LeaseGranted(SweptFor(run, i), e, run[i].ctx, run[i].cmd, rs, r.batch, r.attempt)
  {
    hide StateAfter, Execute, PrepareWrite, Sweep, Inv, Wants, StartsFrom, Tidy, SweptFor;
    CarriedOut(run, i);
    var swept, ctx, cmd := SweptFor(run, i), run[i].ctx, run[i].cmd;
    ProperTidy(swept, ctx, cmd);
    var rs := WantsOne(swept, ctx.Task(), cmd.current);
    ReadyLeaves(swept, ctx, cmd, rs);
    var e, f := PrepareWrite(swept, ctx, cmd).db, StateAfter(run[..i + 1]);
    SameGranted(swept, e, f, ctx, cmd, rs, Reply(run, i).value.batch, Reply(run, i).value.attempt);
  }

  lemma SameGranted(d: Database, e: Database, f: Database, ctx: Context, cmd: Command, rs: ResourceSet, b: Uuid, a: Uuid)
    requires cmd.WritePrepare? && LeaseGranted(d, e, ctx, cmd, rs, b, a) && f.leases == e.leases
    ensures LeaseGranted(d, f, ctx, cmd, rs, b, a)
  {
    hide HoldsLease;
  }
}
