/** Joining the queue, taking a lease and starting a write keep the invariant. */
module GrantProofs {
  import opened Basics
  import opened Resources
  import opened Tables
  import opened Commands
  import opened Invariants
  import opened SweepProofs

  // -------------------------------------------------------------- queuing

  /** The task waits for nothing that the new request does not ask for, and holds nothing. */
  ghost predicate MayQueue(db: Database, ctx: Context, rs: ResourceSet) {
    && ctx.Task() in db.tasks && db.tasks[ctx.Task()].agent == ctx.agent && db.tasks[ctx.Task()].status.Active?
    && !HasTaskLease(db, ctx.Task())
    && (forall b :: b in db.requests && db.requests[b].task == ctx.Task() && db.requests[b].Pending() ==>
          db.requests[b].resources.Keys <= rs.Keys)
    && (forall i :: i in rs ==> ResourceRef(ctx.workspace, i) in db.resources)
  }

  /** What enqueuing does to the request table. */
  ghost predicate Enqueues(d: Database, e: Database, ctx: Context, rs: ResourceSet) {
    var b := d.nextUuid;
    && e == d.(requests := e.requests, queueSequence := d.queueSequence + 1, nextUuid := b + 1)
    && b in e.requests
    && e.requests[b].task == ctx.Task() && e.requests[b].agent == ctx.agent && e.requests[b].state.Queued?
    && e.requests[b].sequence == d.queueSequence + 1 && e.requests[b].resources == rs
    && (forall c :: c in e.requests && c != b ==> c in d.requests)
    && (forall c :: c in d.requests && c != b ==>
          && c in e.requests
          && (if d.requests[c].task == ctx.Task() && d.requests[c].Pending()
              then e.requests[c] == d.requests[c].(state := Superseded, supersededBy := Some(b),
                                                   version := d.requests[c].version + 1)
              else e.requests[c] == d.requests[c]))
  }

  lemma EnqueueDoes(db: Database, ctx: Context, rs: ResourceSet, expiresAt: Instant)
    ensures Enqueues(db, Enqueue(db, ctx, rs, expiresAt), ctx, rs)
  {
  }

  lemma EnqueueOwned(d: Database, e: Database, ctx: Context, rs: ResourceSet)
    requires IdsUsed(d) && Owned(d) && MayQueue(d, ctx, rs) && Enqueues(d, e, ctx, rs)
    ensures IdsUsed(e) && Owned(e)
  {
  }

  lemma EnqueueSingles(d: Database, e: Database, ctx: Context, rs: ResourceSet)
    requires IdsUsed(d) && Singles(d) && Enqueues(d, e, ctx, rs)
    ensures OneLeasePerAgent(e) && OnePendingPerTask(e) && OneOfferPerAgent(e)
  {
    hide PendingUnused, NoHoldAndWait;
  }

  lemma EnqueueUnused(d: Database, e: Database, ctx: Context, rs: ResourceSet)
    requires IdsUsed(d) && NoHoldAndWait(d) && PendingUnused(d) && MayQueue(d, ctx, rs) && Enqueues(d, e, ctx, rs)
    ensures NoHoldAndWait(e) && PendingUnused(e)
  {
  }

  lemma EnqueueApart(d: Database, e: Database, ctx: Context, rs: ResourceSet)
    requires IdsUsed(d) && Apart(d) && Enqueues(d, e, ctx, rs)
    ensures Apart(e)
  {
    hide Clash;
  }

  lemma EnqueueOrder(d: Database, e: Database, ctx: Context, rs: ResourceSet)
    requires RequestsOwned(d) && SequencesDistinct(d) && NoOvertaking(d) && Enqueues(d, e, ctx, rs)
    ensures SequencesDistinct(e) && NoOvertaking(e)
  {
    hide Clash;
  }

  lemma EnqueueChains(d: Database, e: Database, ctx: Context, rs: ResourceSet)
    requires IdsUsed(d) && RequestsOwned(d) && ChainsRise(d) && MayQueue(d, ctx, rs) && Enqueues(d, e, ctx, rs)
    ensures ChainsRise(e)
  {
  }

  lemma EnqueueWrites(d: Database, e: Database, ctx: Context, rs: ResourceSet)
    requires IdsUsed(d) && WritesSound(d) && EvidenceSound(d) && MayQueue(d, ctx, rs) && Enqueues(d, e, ctx, rs)
    ensures WritesSound(e) && EvidenceSound(e)
  {
    hide Overlap;
  }

  lemma EnqueueKeeps(db: Database, ctx: Context, rs: ResourceSet, expiresAt: Instant)
    requires Inv(db) && MayQueue(db, ctx, rs)
    ensures Inv(Enqueue(db, ctx, rs, expiresAt))
  {
    var e := Enqueue(db, ctx, rs, expiresAt);
    hide IdsUsed, TasksSound, LeasesOwned, RequestsOwned, Apart, WritesSound, EvidenceSound, MayQueue, Enqueues, Enqueue;
    hide OneLeasePerAgent, OnePendingPerTask, OneOfferPerAgent, NoHoldAndWait, PendingUnused;
    hide SequencesDistinct, NoOvertaking, ChainsRise;
    EnqueueDoes(db, ctx, rs, expiresAt);
    EnqueueOwned(db, e, ctx, rs);
    EnqueueSingles(db, e, ctx, rs);
    EnqueueUnused(db, e, ctx, rs);
    EnqueueApart(db, e, ctx, rs);
    EnqueueOrder(db, e, ctx, rs);
    EnqueueChains(db, e, ctx, rs);
    EnqueueWrites(db, e, ctx, rs);
  }

  // --------------------------------------------------------------- leases

  /** Nobody else reserves any of the resources, and the task waits for nothing. */
  ghost predicate MayGrant(db: Database, ctx: Context, rs: ResourceSet) {
    && ctx.Task() in db.tasks && db.tasks[ctx.Task()].agent == ctx.agent && db.tasks[ctx.Task()].status.Active?
    && !HasPending(db, ctx.Task())
    && !AgentSlotOccupied(db, ctx.workspace, ctx.agent, Some(ctx.Task()))
    && !Conflict(db, ctx.Task(), rs)
    && (forall i :: i in rs ==> ResourceRef(ctx.workspace, i) in db.resources)
  }

  /** The lease `b` of the task now covers `rs`: a new lease, or the task's own,
      grown while idle or left with the resources it had. */
  ghost predicate Grants(d: Database, e: Database, b: Uuid, ctx: Context, rs: ResourceSet) {
    && b in e.leases
    && e == d.(leases := d.leases[b := e.leases[b]], nextUuid := e.nextUuid)
    && d.nextUuid <= e.nextUuid && b < e.nextUuid
    && e.leases[b].task == ctx.Task() && e.leases[b].agent == ctx.agent
    && e.leases[b].resources == rs
    && (if b in d.leases then
          && d.leases[b].task == ctx.Task()
          && e.leases[b].state == d.leases[b].state && e.leases[b].releasePending == d.leases[b].releasePending
          && e.leases[b].slots == d.leases[b].slots
          && (forall i :: i in d.leases[b].resources ==> i in rs && rs[i] == d.leases[b].resources[i])
        else
          && b == d.nextUuid && !HasTaskLease(d, ctx.Task())
          && e.leases[b].state.LeaseActive? && !e.leases[b].releasePending && e.leases[b].slots == map[])
  }

  lemma GrantOwned(d: Database, e: Database, b: Uuid, ctx: Context, rs: ResourceSet)
    requires IdsUsed(d) && Owned(d) && MayGrant(d, ctx, rs) && Grants(d, e, b, ctx, rs)
    ensures IdsUsed(e) && Owned(e)
  {
    hide Conflict;
  }

  lemma GrantSingles(d: Database, e: Database, b: Uuid, ctx: Context, rs: ResourceSet)
    requires IdsUsed(d) && Singles(d) && LeasesOwned(d) && MayGrant(d, ctx, rs) && Grants(d, e, b, ctx, rs)
    ensures Singles(e)
  {
    hide Conflict;
  }

  lemma GrantApart(d: Database, e: Database, b: Uuid, ctx: Context, rs: ResourceSet)
    requires Apart(d) && QueueSound(d) && MayGrant(d, ctx, rs) && Grants(d, e, b, ctx, rs)
    ensures Apart(e) && QueueSound(e)
  {
    QueueSame(d, e);
    GrantLeasesApart(d, e, b, ctx, rs);
    GrantOffersApart(d, e, b, ctx, rs);
    hide Clash, QueueSound, LeasesApart, LeasesOffersApart;
  }

  lemma GrantLeasesApart(d: Database, e: Database, b: Uuid, ctx: Context, rs: ResourceSet)
    requires LeasesApart(d) && MayGrant(d, ctx, rs) && Grants(d, e, b, ctx, rs)
    ensures LeasesApart(e)
  {
    ClashSymmetric();
    hide Clash, OfferConflict, HasPending;
  }

  lemma GrantOffersApart(d: Database, e: Database, b: Uuid, ctx: Context, rs: ResourceSet)
    requires LeasesOffersApart(d) && MayGrant(d, ctx, rs) && Grants(d, e, b, ctx, rs)
    ensures LeasesOffersApart(e)
  {
    ClashSymmetric();
    hide Clash, LeaseConflict, HasPending;
  }

  lemma QueueSame(d: Database, e: Database)
    requires QueueSound(d) && e.requests == d.requests
    ensures QueueSound(e)
  {
    hide Clash;
  }

  lemma GrantWrites(d: Database, e: Database, b: Uuid, ctx: Context, rs: ResourceSet)
    requires IdsUsed(d) && WritesSound(d) && Grants(d, e, b, ctx, rs)
    ensures WritesSound(e)
  {
  }

  lemma GrantEvidence(d: Database, e: Database, b: Uuid, ctx: Context, rs: ResourceSet)
    requires LeasesOwned(d) && EvidenceSound(d) && MayGrant(d, ctx, rs) && Grants(d, e, b, ctx, rs)
    ensures EvidenceSound(e)
  {
    hide Overlap, Conflict;
  }

  lemma GrantKeeps(d: Database, e: Database, b: Uuid, ctx: Context, rs: ResourceSet)
    requires Inv(d) && MayGrant(d, ctx, rs) && Grants(d, e, b, ctx, rs)
    ensures Inv(e)
  {
    hide IdsUsed, TasksSound, LeasesOwned, RequestsOwned, Singles, Apart, QueueSound, WritesSound, EvidenceSound;
    hide MayGrant, Grants;
    GrantOwned(d, e, b, ctx, rs);
    GrantSingles(d, e, b, ctx, rs);
    GrantApart(d, e, b, ctx, rs);
    GrantWrites(d, e, b, ctx, rs);
    GrantEvidence(d, e, b, ctx, rs);
  }

  // --------------------------------------------------------------- writes

  /** A new attempt of the lease's task takes free slots on `ids`. */
  ghost predicate Begins(d: Database, e: Database, b: Uuid, a: Uuid, ids: set<ResourceId>) {
    && b in d.leases && a == d.nextUuid && a in e.attempts && b in e.leases
    && e == d.(attempts := d.attempts[a := e.attempts[a]], leases := d.leases[b := e.leases[b]], nextUuid := e.nextUuid)
    && a < e.nextUuid
    && e.attempts[a].status.Executing? && e.attempts[a].batch == b && e.attempts[a].task == d.leases[b].task
    && e.attempts[a].start != [] && (forall o :: o in e.attempts[a].start ==> o.key.id in ids)
    && e.leases[b] == d.leases[b].(slots := e.leases[b].slots)
    && ids <= d.leases[b].resources.Keys && ids !! d.leases[b].slots.Keys
    && e.leases[b].slots.Keys == d.leases[b].slots.Keys + ids
    && (forall i :: i in ids ==> e.leases[b].slots[i] == a)
    && (forall i :: i in d.leases[b].slots ==> e.leases[b].slots[i] == d.leases[b].slots[i])
  }

  /** No valid evidence of another task overlaps a resource of the lease. */
  ghost predicate Cleared(db: Database, b: Uuid)
    requires b in db.leases
  {
    forall e, i | && e in db.evidence && db.evidence[e].valid && db.evidence[e].task != db.leases[b].task
                  && i in db.leases[b].resources
      :: !Overlap(db.evidence[e].observation.key, Key(db.leases[b].task.workspace, db.leases[b].resources, i))
  }

  lemma BeginOwned(d: Database, e: Database, b: Uuid, a: Uuid, ids: set<ResourceId>)
    requires IdsUsed(d) && Owned(d) && Begins(d, e, b, a, ids)
    ensures IdsUsed(e) && Owned(e)
  {
  }

  lemma BeginSingles(d: Database, e: Database, b: Uuid, a: Uuid, ids: set<ResourceId>)
    requires Singles(d) && Begins(d, e, b, a, ids)
    ensures Singles(e)
  {
  }

  lemma BeginApart(d: Database, e: Database, b: Uuid, a: Uuid, ids: set<ResourceId>)
    requires Apart(d) && QueueSound(d) && Begins(d, e, b, a, ids)
    ensures Apart(e) && QueueSound(e)
  {
    QueueSame(d, e);
    hide Clash, QueueSound;
  }

  lemma BeginWrites(d: Database, e: Database, b: Uuid, a: Uuid, ids: set<ResourceId>)
    requires IdsUsed(d) && WritesSound(d) && Begins(d, e, b, a, ids)
    ensures WritesSound(e)
  {
  }

  lemma BeginEvidence(d: Database, e: Database, b: Uuid, a: Uuid, ids: set<ResourceId>)
    requires EvidenceSound(d) && Begins(d, e, b, a, ids) && Cleared(d, b)
    ensures EvidenceSound(e)
  {
    hide Overlap;
  }

  lemma BeginKeeps(d: Database, e: Database, b: Uuid, a: Uuid, ids: set<ResourceId>)
    requires Inv(d) && Begins(d, e, b, a, ids) && Cleared(d, b)
    ensures Inv(e)
  {
    hide *;
    Parts(d);
    BeginOwned(d, e, b, a, ids);
    BeginSingles(d, e, b, a, ids);
    BeginApart(d, e, b, a, ids);
    BeginWrites(d, e, b, a, ids);
    BeginEvidence(d, e, b, a, ids);
    Whole(e);
  }

  // ----------------------------------------------------------- activation

  /** The offered request `b` becomes a lease of the same resources. */
  ghost predicate Activates(d: Database, e: Database, b: Uuid) {
    && b in d.requests && d.requests[b].state.Offered? && b in e.leases && b in e.requests
    && e == d.(leases := d.leases[b := e.leases[b]], requests := d.requests[b := e.requests[b]])
    && e.leases[b].task == d.requests[b].task && e.leases[b].agent == d.requests[b].agent
    && e.leases[b].resources == d.requests[b].resources
    && e.leases[b].state.LeaseActive? && !e.leases[b].releasePending && e.leases[b].slots == map[]
    && e.requests[b].state.Activated?
    && e.requests[b].task == d.requests[b].task && e.requests[b].agent == d.requests[b].agent
    && e.requests[b].sequence == d.requests[b].sequence && e.requests[b].resources == d.requests[b].resources
  }

  ghost predicate SlotFree(db: Database, b: Uuid)
    requires b in db.requests
  {
    !AgentSlotOccupied(db, db.requests[b].task.workspace, db.requests[b].agent, None)
  }

  lemma ActivateOwned(d: Database, e: Database, b: Uuid)
    requires IdsUsed(d) && Owned(d) && Activates(d, e, b)
    ensures IdsUsed(e) && Owned(e)
  {
  }

  lemma ActivateSingles(d: Database, e: Database, b: Uuid)
    requires Singles(d) && Activates(d, e, b) && SlotFree(d, b)
    ensures Singles(e)
  {
  }

  lemma ActivateApart(d: Database, e: Database, b: Uuid)
    requires Apart(d) && Activates(d, e, b)
    ensures Apart(e)
  {
    ClashSymmetric();
    hide Clash;
  }

  lemma ActivateQueue(d: Database, e: Database, b: Uuid)
    requires QueueSound(d) && Activates(d, e, b)
    ensures QueueSound(e)
  {
    hide Clash;
  }

  lemma ActivateWrites(d: Database, e: Database, b: Uuid)
    requires WritesSound(d) && PendingUnused(d) && EvidenceSound(d) && Activates(d, e, b)
    ensures WritesSound(e) && EvidenceSound(e)
  {
    hide Overlap;
  }

  lemma ActivateKeeps(d: Database, e: Database, b: Uuid)
    requires Inv(d) && Activates(d, e, b) && SlotFree(d, b)
    ensures Inv(e)
  {
    hide IdsUsed, Owned, Apart, QueueSound, WritesSound, EvidenceSound, Activates, SlotFree;
    hide OneLeasePerAgent, OnePendingPerTask, OneOfferPerAgent, NoHoldAndWait, PendingUnused;
    ActivateOwned(d, e, b);
    ActivateSingles(d, e, b);
    ActivateApart(d, e, b);
    ActivateQueue(d, e, b);
    ActivateWrites(d, e, b);
  }
}
