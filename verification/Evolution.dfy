/** How the tables may change from one moment of a run to any later one. */
module Evolution {
  import opened Basics
  import opened Resources
  import opened Tables
  import opened Sweeps
  import opened ReadEvidence
  import opened Invariants
  import opened Reductions
  import opened SweepProofs
  import opened EvidenceProofs
  import opened GrantProofs

  /** A generation never falls, and an unchanged one means an unchanged state. */
  ghost predicate ResourcesEvolve(d: Database, e: Database) {
    forall r :: r in d.resources ==>
      && r in e.resources
      && e.resources[r].path == d.resources[r].path
      && d.resources[r].generation <= e.resources[r].generation
      && (e.resources[r].generation == d.resources[r].generation ==> e.resources[r].state == d.resources[r].state)
  }

  /** Evidence never comes back to life, and new evidence has a new id. */
  ghost predicate EvidenceEvolves(d: Database, e: Database) {
    && (forall k :: k in d.evidence ==>
          && k in e.evidence
          && e.evidence[k].task == d.evidence[k].task
          && e.evidence[k].source == d.evidence[k].source
          && e.evidence[k].observation == d.evidence[k].observation
          && (e.evidence[k].valid ==> d.evidence[k].valid))
    && (forall k :: k in e.evidence && k !in d.evidence ==> d.nextUuid <= k.evidence)
  }

  /** Owners are fixed, a terminal status is final and draining has no way back. */
  ghost predicate TasksEvolve(d: Database, e: Database) {
    forall t :: t in d.tasks ==>
      && t in e.tasks
      && e.tasks[t].agent == d.tasks[t].agent
      && (d.tasks[t].status.IsTerminal() ==> e.tasks[t].status == d.tasks[t].status)
      && (d.tasks[t].status.Draining? ==> !e.tasks[t].status.Active?)
  }

  /** The moves of a request: an offer is not taken back into the queue and a
      closed request stays as it is. */
  predicate Follows(s: RequestState, s': RequestState) {
    s' == s || s.Queued? || (s.Offered? && !s'.Queued?)
  }

  ghost predicate RequestsEvolve(d: Database, e: Database) {
    && (forall b :: b in d.requests ==>
          && b in e.requests
          && e.requests[b].task == d.requests[b].task
          && e.requests[b].sequence == d.requests[b].sequence
          && e.requests[b].resources == d.requests[b].resources
          && Follows(d.requests[b].state, e.requests[b].state)
          && (d.requests[b].state.Superseded? ==> e.requests[b].supersededBy == d.requests[b].supersededBy))
    && (forall b :: b in e.requests && b !in d.requests ==>
          d.nextUuid <= b && d.queueSequence < e.requests[b].sequence)
  }

  /** A settled attempt is settled for good. */
  ghost predicate AttemptsEvolve(d: Database, e: Database) {
    && (forall a :: a in d.attempts ==>
          && a in e.attempts
          && e.attempts[a] == d.attempts[a].(status := e.attempts[a].status)
          && (!d.attempts[a].status.Executing? ==> e.attempts[a].status == d.attempts[a].status))
    && (forall a :: a in e.attempts && a !in d.attempts ==> d.nextUuid <= a)
  }

  /** A lease only grows and drains, and a batch becomes a lease only out of a
      pending request or under a new id. */
  ghost predicate LeasesEvolve(d: Database, e: Database) {
    && (forall b :: b in d.leases && b in e.leases ==>
          && e.leases[b].task == d.leases[b].task
          && (d.leases[b].state.LeaseDraining? ==> e.leases[b].state.LeaseDraining?)
          && (forall i :: i in d.leases[b].resources ==>
                i in e.leases[b].resources && e.leases[b].resources[i] == d.leases[b].resources[i]))
    && (forall b :: b in e.leases && b !in d.leases ==>
          d.nextUuid <= b || (b in d.requests && d.requests[b].Pending()))
  }

  ghost predicate ReceiptsEvolve(d: Database, e: Database) {
    forall k :: k in d.receipts ==> k in e.receipts && e.receipts[k] == d.receipts[k]
  }

  ghost predicate TablesEvolve(d: Database, e: Database) {
    && ResourcesEvolve(d, e) && EvidenceEvolves(d, e) && TasksEvolve(d, e) && RequestsEvolve(d, e)
    && AttemptsEvolve(d, e) && LeasesEvolve(d, e)
    && d.nextUuid <= e.nextUuid && d.queueSequence <= e.queueSequence
  }

  /** The change a sweep or the body of a command may make. */
  ghost predicate Evolves(d: Database, e: Database) {
    TablesEvolve(d, e) && e.receipts == d.receipts
  }

  /** The change from one moment of a run to any later one. */
  ghost predicate Later(d: Database, e: Database) {
    TablesEvolve(d, e) && ReceiptsEvolve(d, e)
  }

  lemma EvolveRequestsTransitive(c: Database, d: Database, e: Database)
    requires RequestsEvolve(c, d) && RequestsEvolve(d, e) && c.nextUuid <= d.nextUuid && c.queueSequence <= d.queueSequence
    ensures RequestsEvolve(c, e)
  {
  }

  lemma EvolveLeasesTransitive(c: Database, d: Database, e: Database)
    requires LeasesEvolve(c, d) && LeasesEvolve(d, e) && RequestsEvolve(c, d) && c.nextUuid <= d.nextUuid
    requires forall b :: b in c.leases ==> b < c.nextUuid && !(b in c.requests && c.requests[b].Pending())
    ensures LeasesEvolve(c, e)
  {
  }

  lemma EvolveRestTransitive(c: Database, d: Database, e: Database)
    requires ResourcesEvolve(c, d) && ResourcesEvolve(d, e) && EvidenceEvolves(c, d) && EvidenceEvolves(d, e)
    requires TasksEvolve(c, d) && TasksEvolve(d, e) && AttemptsEvolve(c, d) && AttemptsEvolve(d, e)
    requires c.nextUuid <= d.nextUuid
    ensures ResourcesEvolve(c, e) && EvidenceEvolves(c, e) && TasksEvolve(c, e) && AttemptsEvolve(c, e)
  {
  }

  lemma LeasesNotPending(db: Database)
    requires Inv(db)
    ensures forall b :: b in db.leases ==> b < db.nextUuid && !(b in db.requests && db.requests[b].Pending())
  {
    hide Owned, OneLeasePerAgent, OnePendingPerTask, OneOfferPerAgent, NoHoldAndWait;
    hide Apart, QueueSound, WritesSound, EvidenceSound;
  }

  lemma TablesTransitive(c: Database, d: Database, e: Database)
    requires Inv(c) && TablesEvolve(c, d) && TablesEvolve(d, e)
    ensures TablesEvolve(c, e)
  {
    hide Inv, ResourcesEvolve, EvidenceEvolves, TasksEvolve, RequestsEvolve, AttemptsEvolve, LeasesEvolve;
    LeasesNotPending(c);
    EvolveRequestsTransitive(c, d, e);
    EvolveLeasesTransitive(c, d, e);
    EvolveRestTransitive(c, d, e);
  }

  lemma EvolvesTransitive(c: Database, d: Database, e: Database)
    requires Inv(c) && Evolves(c, d) && Evolves(d, e)
    ensures Evolves(c, e)
  {
    hide Inv, TablesEvolve;
    TablesTransitive(c, d, e);
  }

  lemma LaterTransitive(c: Database, d: Database, e: Database)
    requires Inv(c) && Later(c, d) && Later(d, e)
    ensures Later(c, e)
  {
    hide Inv, TablesEvolve;
    TablesTransitive(c, d, e);
  }

  lemma EvolvesReflexive(d: Database)
    ensures Evolves(d, d)
  {
  }

  // ------------------------------------------------------- single changes

  lemma ReduceEvolves(d: Database, e: Database)
    requires Reduces(d, e) && TasksEvolve(d, e) && e.receipts == d.receipts
    ensures Evolves(d, e)
  {
  }

  lemma CoreEvolves(d: Database, e: Database)
    requires CoreSame(d, e) && ResourcesEvolve(d, e) && EvidenceEvolves(d, e) && e.receipts == d.receipts
    ensures Evolves(d, e)
  {
  }

  lemma OfferEvolves(d: Database, e: Database, b: Uuid)
    requires OffersOne(d, e, b)
    ensures Evolves(d, e)
  {
  }

  lemma EnqueueEvolves(d: Database, e: Database, ctx: Context, rs: ResourceSet)
    requires IdsUsed(d) && Enqueues(d, e, ctx, rs)
    ensures Evolves(d, e)
  {
  }

  lemma GrantEvolves(d: Database, e: Database, b: Uuid, ctx: Context, rs: ResourceSet)
    requires Grants(d, e, b, ctx, rs)
    ensures Evolves(d, e)
  {
  }

  lemma BeginEvolves(d: Database, e: Database, b: Uuid, a: Uuid, ids: set<ResourceId>)
    requires IdsUsed(d) && Begins(d, e, b, a, ids)
    ensures Evolves(d, e)
  {
  }

  lemma ActivateEvolves(d: Database, e: Database, b: Uuid)
    requires b !in d.leases && Activates(d, e, b)
    ensures Evolves(d, e)
  {
  }

  lemma FilesEvolves(d: Database, e: Database, t: TaskKey, os: ObservationSet)
    requires IdsUsed(d) && Files(d, e, t, os) && e.receipts == d.receipts
    ensures Evolves(d, e)
  {
    hide PeerWriteInFlight;
  }

  lemma RevokeEvolves(db: Database, keys: set<ResourceKey>, exclude: Option<TaskKey>)
    ensures Evolves(db, Revoke(db, keys, exclude))
  {
    RevokeSettles(db, keys, exclude);
    assert Revoke(db, keys, exclude).receipts == db.receipts;
    hide Revoke, Overlap;
    CoreEvolves(db, Revoke(db, keys, exclude));
  }

  lemma SyncEvolves(db: Database, workspace: Name, os: ObservationSet)
    requires Filed(workspace, os)
    ensures Evolves(db, Sync(db, workspace, os))
  {
    var e := Sync(db, workspace, os);
    SyncMoves(db, workspace, os);
    RevokeSettles(db, ChangedKeys(db, os), None);
    hide Revoke;
    CoreEvolves(db, e);
  }

  // ------------------------------------------------------------- sweeping

  lemma ExpireTasksEvolves(db: Database, now: Instant)
    ensures Evolves(db, ExpireTasks(db, now))
  {
    ExpireTasksReduces(db, now);
    ReduceEvolves(db, ExpireTasks(db, now)) by {
      hide Reduces, Busy;
    }
    hide *;
  }

  lemma ExpiryEvolves(db: Database, now: Instant)
    requires Inv(db)
    ensures Evolves(db, ExpireTasksAndLeases(db, now))
  {
    var d := ExpireTasks(db, now);
    ExpireTasksEvolves(db, now);
    hide Inv, Evolves, ExpireTasks, Reduces;
    ExpireLeasesReduces(d, now);
    ReduceEvolves(d, ExpireLeases(d, now));
    EvolvesTransitive(db, d, ExpireLeases(d, now));
  }

  lemma PromoteOneEvolves(db: Database, b: Uuid, now: Instant)
    requires b in db.requests && db.requests[b].state.Queued? && db.requests[b].task in db.tasks
    ensures Evolves(db, PromoteOne(db, b, now))
  {
    hide Evolves, Blocked, PromoteOne, Reduces;
    var e := PromoteOne(db, b, now);
    if Lapsed(db, b, now) {
      PromoteOneLapses(db, b, now);
      LapseReduces(db, e, b);
      ReduceEvolves(db, e);
    } else if Blocked(db, b) {
      PromoteOneStays(db, b, now);
      EvolvesReflexive(db);
    } else {
      PromoteOneOffers(db, b, now);
      OfferEvolves(db, e, b);
    }
  }

  lemma {:induction false} PromoteThroughEvolves(db: Database, n: nat, now: Instant)
    requires Inv(db)
    ensures Evolves(db, PromoteThrough(db, n, now))
  {
    hide Inv, Evolves, PromoteOne, ExpireOffers;
    if n == 0 {
      ExpireOffersEvolves(db, now);
    } else {
      var d := PromoteThrough(db, n - 1, now);
      PromoteThroughEvolves(db, n - 1, now);
      if exists b :: Waits(d, n, b) {
        var b :| Waits(d, n, b) && PromoteNumber(d, n, now) == PromoteOne(d, b, now);
        PromoteOneEvolves(d, b, now);
        EvolvesTransitive(db, d, PromoteOne(d, b, now));
      }
    }
  }

  lemma ExpireOffersEvolves(db: Database, now: Instant)
    ensures Evolves(db, ExpireOffers(db, now))
  {
    hide Reduces, Evolves;
    ExpireOffersReduces(db, now);
    ReduceEvolves(db, ExpireOffers(db, now));
  }

  lemma PromoteEvolves(db: Database, now: Instant)
    requires Inv(db)
    ensures Evolves(db, Promote(db, now))
  {
    hide Inv, Evolves;
    PromoteThroughEvolves(db, db.queueSequence, now);
  }

  /** A change followed by promotion. */
  lemma ThenPromoteEvolves(c: Database, d: Database, now: Instant)
    requires Inv(c) && Evolves(c, d) && Inv(d)
    ensures Evolves(c, Promote(d, now))
  {
    hide Inv, Evolves, Promote;
    PromoteEvolves(d, now);
    EvolvesTransitive(c, d, Promote(d, now));
  }

  lemma SweepEvolves(db: Database, now: Instant)
    requires Inv(db)
    ensures Evolves(db, Sweep(db, now))
  {
    hide Inv, Evolves, Promote, ExpireTasksAndLeases;
    ExpiryEvolves(db, now);
    ExpiryKeeps(db, now);
    ThenPromoteEvolves(db, ExpireTasksAndLeases(db, now), now);
  }

  lemma DrainEvolves(d: Database, e: Database)
    requires DrainsSome(d, e)
    ensures Evolves(d, e)
  {
    hide Reduces;
    DrainReduces(d, e);
    ReduceEvolves(d, e);
  }

  lemma ForgetInactiveEvolves(db: Database)
    requires Inv(db)
    ensures Evolves(db, ForgetInactive(db))
  {
    hide Inv, Owned, WritesSound, Reduces, Evolves;
    Parts(db);
    ForgetInactiveSettles(db);
    ReduceEvolves(db, ForgetInactive(db));
  }

  lemma MaintainEvolves(db: Database, now: Instant)
    requires Inv(db)
    ensures Evolves(db, Maintain(db, now))
  {
    hide Inv, Evolves, Promote, ExpireOffers, ExpireTasksAndLeases, ForgetInactive;
    var a := ExpireOffers(db, now);
    ExpireOffersKeeps(db, now);
    ExpireOffersEvolves(db, now);
    var b := ExpireTasksAndLeases(a, now);
    ExpiryKeeps(a, now);
    ExpiryEvolves(a, now);
    EvolvesTransitive(db, a, b);
    var c := ForgetInactive(b);
    ForgetInactiveKeeps(b);
    ForgetInactiveEvolves(b);
    EvolvesTransitive(db, b, c);
    var d := DrainOverdueWrites(c, now);
    DrainOverdueKeeps(c, now);
    DrainEvolves(c, d);
    EvolvesTransitive(db, c, d);
    ThenPromoteEvolves(db, d, now);
  }
}
