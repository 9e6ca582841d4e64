/** The sweeps keep the invariant, and promotion leaves no request waiting without a reason. */
module SweepProofs {
  import opened Basics
  import opened Resources
  import opened Tables
  import opened Sweeps
  import opened Invariants
  import opened Reductions

  // --------------------------------------------------------------- expiry

  lemma ExpireOffersReduces(db: Database, now: Instant)
    ensures Reduces(db, ExpireOffers(db, now))
  {
  }

  lemma ExpireOffersSettles(db: Database, now: Instant)
    requires Owned(db) && WritesSound(db)
    ensures Owned(ExpireOffers(db, now)) && WritesSound(ExpireOffers(db, now))
  {
  }

  lemma ExpireOffersKeeps(db: Database, now: Instant)
    requires Inv(db)
    ensures Inv(ExpireOffers(db, now))
  {
    hide *;
    Parts(db);
    ExpireOffersReduces(db, now);
    ExpireOffersSettles(db, now);
    ReduceKeeps(db, ExpireOffers(db, now));
  }

  lemma ExpireTasksShrinks(db: Database, now: Instant)
    ensures LeasesShrink(db, ExpireTasks(db, now))
  {
    hide Busy, TaskDue;
  }

  lemma ExpireTasksCloses(db: Database, now: Instant)
    ensures RequestsClose(db, ExpireTasks(db, now))
  {
    hide Busy, TaskDue;
  }

  lemma ExpireTasksReduces(db: Database, now: Instant)
    ensures Reduces(db, ExpireTasks(db, now))
  {
    hide Busy, TaskDue, LeasesShrink, RequestsClose;
    ExpireTasksShrinks(db, now);
    ExpireTasksCloses(db, now);
  }

  lemma ExpireTasksOwned(db: Database, now: Instant)
    requires Owned(db)
    ensures Owned(ExpireTasks(db, now))
  {
    hide Busy;
  }

  lemma ExpireTasksWrites(db: Database, now: Instant)
    requires WritesSound(db)
    ensures WritesSound(ExpireTasks(db, now))
  {
  }

  lemma ExpireTasksKeeps(db: Database, now: Instant)
    requires Inv(db)
    ensures Inv(ExpireTasks(db, now))
  {
    hide *;
    Parts(db);
    ExpireTasksReduces(db, now);
    ExpireTasksOwned(db, now);
    ExpireTasksWrites(db, now);
    ReduceKeeps(db, ExpireTasks(db, now));
  }

  lemma ExpireLeasesReduces(db: Database, now: Instant)
    ensures Reduces(db, ExpireLeases(db, now))
  {
  }

  lemma ExpireLeasesOwned(db: Database, now: Instant)
    requires Owned(db)
    ensures Owned(ExpireLeases(db, now))
  {
  }

  lemma ExpireLeasesWrites(db: Database, now: Instant)
    requires WritesSound(db)
    ensures WritesSound(ExpireLeases(db, now))
  {
    forall a | a in db.attempts && db.attempts[a].status.Executing?
      ensures db.leases[db.attempts[a].batch].slots != map[]
    {
      assert db.attempts[a].start[0] in db.attempts[a].start;
    }
  }

  lemma ExpireLeasesKeeps(db: Database, now: Instant)
    requires Inv(db)
    ensures Inv(ExpireLeases(db, now))
  {
    hide *;
    Parts(db);
    ExpireLeasesReduces(db, now);
    ExpireLeasesOwned(db, now);
    ExpireLeasesWrites(db, now);
    ReduceKeeps(db, ExpireLeases(db, now));
  }

  // ------------------------------------------------------------ promotion

  lemma ClashSymmetric()
    ensures forall w1, r1, w2, r2 :: Clash(w1, r1, w2, r2) ==> Clash(w2, r2, w1, r1)
  {
    forall w1, r1, w2, r2 | Clash(w1, r1, w2, r2) ensures Clash(w2, r2, w1, r1) {
      var i, j :| i in r1 && j in r2 && Overlap(ResourceKey(w1, i, r1[i]), ResourceKey(w2, j, r2[j]));
      assert Overlap(ResourceKey(w2, j, r2[j]), ResourceKey(w1, i, r1[i]));
    }
  }

  /** The request `b` of `d` is offered in `e` and nothing else moves. */
  ghost predicate OffersOne(d: Database, e: Database, b: Uuid) {
    && b in d.requests && b in e.requests && d.requests[b].state.Queued?
    && e == d.(requests := d.requests[b := e.requests[b]], nextUuid := d.nextUuid + 1)
    && e.requests[b].state.Offered? && e.requests[b].offer.Some?
    && e.requests[b].task == d.requests[b].task
    && e.requests[b].agent == d.requests[b].agent
    && e.requests[b].sequence == d.requests[b].sequence
    && e.requests[b].resources == d.requests[b].resources
  }

  lemma OfferOwned(d: Database, e: Database, b: Uuid)
    requires IdsUsed(d) && Owned(d) && WritesSound(d) && OffersOne(d, e, b)
    ensures IdsUsed(e) && Owned(e) && WritesSound(e)
  {
  }

  lemma OfferSingles(d: Database, e: Database, b: Uuid)
    requires Singles(d) && OffersOne(d, e, b) && !Blocked(d, b)
    ensures Singles(e)
  {
    hide EarlierWaiter, Conflict;
  }

  lemma OfferApart(d: Database, e: Database, b: Uuid)
    requires Apart(d) && OffersOne(d, e, b) && !Blocked(d, b)
    ensures Apart(e)
  {
    ClashSymmetric();
    hide Clash, EarlierWaiter, AgentSlotOccupied, AgentHasOffer, HasTaskLease;
  }

  lemma OfferQueue(d: Database, e: Database, b: Uuid)
    requires QueueSound(d) && OffersOne(d, e, b) && !Blocked(d, b)
    ensures QueueSound(e)
  {
    hide Clash, Conflict, AgentSlotOccupied, AgentHasOffer, HasTaskLease;
  }

  lemma OfferEvidence(d: Database, e: Database, b: Uuid)
    requires EvidenceSound(d) && OffersOne(d, e, b)
    ensures EvidenceSound(e)
  {
    hide Overlap;
  }

  lemma OfferKeeps(d: Database, e: Database, b: Uuid)
    requires Inv(d) && OffersOne(d, e, b) && !Blocked(d, b)
    ensures Inv(e)
  {
    hide *;
    Parts(d);
    OfferOwned(d, e, b);
    OfferSingles(d, e, b);
    OfferApart(d, e, b);
    OfferQueue(d, e, b);
    OfferEvidence(d, e, b);
    Whole(e);
  }

  /** The request `b` of `d` lapses in `e` and nothing else moves. */
  ghost predicate LapsesOne(d: Database, e: Database, b: Uuid) {
    && b in d.requests && d.requests[b].state.Queued?
    && e == d.(requests := d.requests[b := d.requests[b].(state := Expired)])
  }

  lemma LapseReduces(d: Database, e: Database, b: Uuid)
    requires LapsesOne(d, e, b)
    ensures Reduces(d, e)
  {
  }

  lemma LapseSettles(d: Database, e: Database, b: Uuid)
    requires Owned(d) && WritesSound(d) && LapsesOne(d, e, b)
    ensures Owned(e) && WritesSound(e)
  {
  }

  lemma LapseKeeps(d: Database, e: Database, b: Uuid)
    requires Inv(d) && LapsesOne(d, e, b)
    ensures Inv(e)
  {
    hide *;
    Parts(d);
    LapseReduces(d, e, b);
    LapseSettles(d, e, b);
    ReduceKeeps(d, e);
  }

  ghost predicate Lapsed(db: Database, b: Uuid, now: Instant)
    requires b in db.requests && db.requests[b].task in db.tasks
  {
    !db.tasks[db.requests[b].task].status.Active? || db.requests[b].expiresAt <= now
  }

  lemma PromoteOneLapses(db: Database, b: Uuid, now: Instant)
    requires b in db.requests && db.requests[b].state.Queued? && db.requests[b].task in db.tasks
    requires Lapsed(db, b, now)
    ensures LapsesOne(db, PromoteOne(db, b, now), b)
  {
  }

  lemma PromoteOneStays(db: Database, b: Uuid, now: Instant)
    requires b in db.requests && db.requests[b].task in db.tasks
    requires !Lapsed(db, b, now) && Blocked(db, b)
    ensures PromoteOne(db, b, now) == db
  {
    hide Blocked;
  }

  lemma PromoteOneOffers(db: Database, b: Uuid, now: Instant)
    requires b in db.requests && db.requests[b].state.Queued? && db.requests[b].task in db.tasks
    requires !Lapsed(db, b, now) && !Blocked(db, b)
    ensures OffersOne(db, PromoteOne(db, b, now), b)
    ensures db.tasks[db.requests[b].task].settings.offerTtl > 0 ==>
              now < PromoteOne(db, b, now).requests[b].offer.value.expiresAt
  {
    hide Blocked;
  }

  lemma PromoteOneKeeps(db: Database, b: Uuid, now: Instant)
    requires Inv(db) && b in db.requests && db.requests[b].state.Queued? && db.requests[b].task in db.tasks
    ensures Inv(PromoteOne(db, b, now))
  {
    hide *;
    if Lapsed(db, b, now) {
      PromoteOneLapses(db, b, now);
      LapseKeeps(db, PromoteOne(db, b, now), b);
    } else if Blocked(db, b) {
      PromoteOneStays(db, b, now);
    } else {
      PromoteOneOffers(db, b, now);
      OfferKeeps(db, PromoteOne(db, b, now), b);
    }
  }

  lemma PromoteNumberKeeps(db: Database, n: nat, now: Instant)
    requires Inv(db)
    ensures Inv(PromoteNumber(db, n, now))
  {
    hide Inv, PromoteOne;
    if exists b :: Waits(db, n, b) {
      var b :| Waits(db, n, b) && PromoteNumber(db, n, now) == PromoteOne(db, b, now);
      PromoteOneKeeps(db, b, now);
    }
  }

  lemma {:induction false} PromoteThroughKeeps(db: Database, n: nat, now: Instant)
    requires Inv(db)
    ensures Inv(PromoteThrough(db, n, now))
  {
    hide Inv, PromoteNumber;
    if n == 0 {
      ExpireOffersKeeps(db, now);
    } else {
      PromoteThroughKeeps(db, n - 1, now);
      PromoteNumberKeeps(PromoteThrough(db, n - 1, now), n, now);
    }
  }

  lemma PromoteKeeps(db: Database, now: Instant)
    requires Inv(db)
    ensures Inv(Promote(db, now))
  {
    hide Inv;
    PromoteThroughKeeps(db, db.queueSequence, now);
  }

  // --------------------------------------------------------- conservation

  /** Requests numbered up to `n` are live, and wait only for a reason. */
  ghost predicate SettledThrough(db: Database, n: nat, now: Instant) {
    forall b :: b in db.requests && db.requests[b].state.Queued? && db.requests[b].sequence <= n ==>
      && Blocked(db, b)
      && db.requests[b].task in db.tasks && db.tasks[db.requests[b].task].status.Active?
      && now < db.requests[b].expiresAt
  }

  ghost predicate OffersLive(db: Database, now: Instant) {
    forall b :: b in db.requests && db.requests[b].state.Offered? ==>
      db.requests[b].offer.Some? && now < db.requests[b].offer.value.expiresAt
  }

  /** Between `d` and `e` only the request `c` moves, from queued to something else. */
  ghost predicate MovesOne(d: Database, e: Database, c: Uuid) {
    && c in d.requests && d.requests[c].state.Queued?
    && e.requests.Keys == d.requests.Keys
    && e.leases == d.leases && e.tasks == d.tasks && e.queueSequence == d.queueSequence
    && !e.requests[c].state.Queued?
    && forall b :: b in d.requests && b != c ==> e.requests[b] == d.requests[b]
  }

  lemma BlockedStays(d: Database, e: Database, c: Uuid, b: Uuid)
    requires MovesOne(d, e, c)
    requires b in d.requests && b != c && d.requests[b].sequence <= d.requests[c].sequence
    requires Blocked(d, b)
    ensures Blocked(e, b)
  {
    hide Clash;
    var r := d.requests[b];
    if EarlierWaiter(d, b) {
      var q :| q in d.requests && d.requests[q].state.Queued? && d.requests[q].sequence < r.sequence
               && Clash(r.task.workspace, r.resources, d.requests[q].task.workspace, d.requests[q].resources);
      assert e.requests[q] == d.requests[q];
    } else if AgentHasOffer(d, r.task.workspace, r.agent) {
      var q :| q in d.requests && d.requests[q].state.Offered?
               && d.requests[q].task.workspace == r.task.workspace && d.requests[q].agent == r.agent;
      assert e.requests[q] == d.requests[q];
    } else if OfferConflict(d, r.task, r.resources) {
      var q :| q in d.requests && d.requests[q].state.Offered? && d.requests[q].task != r.task
               && Clash(r.task.workspace, r.resources, d.requests[q].task.workspace, d.requests[q].resources);
      assert e.requests[q] == d.requests[q];
    }
  }

  lemma MoveSettles(d: Database, e: Database, c: Uuid, n: nat, now: Instant)
    requires SequencesDistinct(d) && MovesOne(d, e, c) && d.requests[c].sequence == n > 0
    requires e.requests[c].sequence == n
    requires SettledThrough(d, n - 1, now)
    ensures SettledThrough(e, n, now)
  {
    hide Blocked;
    forall b | b in e.requests && e.requests[b].state.Queued? && e.requests[b].sequence <= n
      ensures Blocked(e, b)
    {
      BlockedStays(d, e, c, b);
    }
  }

  lemma LapseSettlesNumber(d: Database, e: Database, b: Uuid, n: nat, now: Instant)
    requires SequencesDistinct(d) && LapsesOne(d, e, b) && d.requests[b].sequence == n > 0
    requires SettledThrough(d, n - 1, now) && OffersLive(d, now)
    ensures SettledThrough(e, n, now) && OffersLive(e, now)
  {
    hide Blocked;
    MoveSettles(d, e, b, n, now);
  }

  lemma OfferSettlesNumber(d: Database, e: Database, b: Uuid, n: nat, now: Instant)
    requires SequencesDistinct(d) && OffersOne(d, e, b) && d.requests[b].sequence == n > 0
    requires now < e.requests[b].offer.value.expiresAt
    requires SettledThrough(d, n - 1, now) && OffersLive(d, now)
    ensures SettledThrough(e, n, now) && OffersLive(e, now)
  {
    hide Blocked;
    MoveSettles(d, e, b, n, now);
  }

  lemma StaySettlesNumber(d: Database, b: Uuid, n: nat, now: Instant)
    requires SequencesDistinct(d) && Waits(d, n, b) && n > 0
    requires SettledThrough(d, n - 1, now)
    requires !Lapsed(d, b, now) && Blocked(d, b)
    ensures SettledThrough(d, n, now)
  {
    hide Blocked;
  }

  lemma PromoteOneSettles(db: Database, b: Uuid, n: nat, now: Instant)
    requires TasksSound(db) && SequencesDistinct(db) && Waits(db, n, b) && n > 0
    requires SettledThrough(db, n - 1, now) && OffersLive(db, now)
    ensures SettledThrough(PromoteOne(db, b, now), n, now) && OffersLive(PromoteOne(db, b, now), now)
    ensures PromoteOne(db, b, now).queueSequence == db.queueSequence
  {
    hide Blocked, PromoteOne, OffersLive, SettledThrough, SequencesDistinct;
    var e := PromoteOne(db, b, now);
    if Lapsed(db, b, now) {
      PromoteOneLapses(db, b, now);
      LapseSettlesNumber(db, e, b, n, now);
    } else if Blocked(db, b) {
      PromoteOneStays(db, b, now);
      StaySettlesNumber(db, b, n, now);
    } else {
      PromoteOneOffers(db, b, now);
      OfferSettlesNumber(db, e, b, n, now);
    }
  }

  lemma PromoteNumberSettles(db: Database, n: nat, now: Instant)
    requires Owned(db) && SequencesDistinct(db) && n > 0
    requires SettledThrough(db, n - 1, now) && OffersLive(db, now)
    ensures SettledThrough(PromoteNumber(db, n, now), n, now) && OffersLive(PromoteNumber(db, n, now), now)
    ensures PromoteNumber(db, n, now).queueSequence == db.queueSequence
  {
    hide Blocked, PromoteOne, OffersLive, LeasesOwned, TasksSound;
    if exists b :: Waits(db, n, b) {
      var b :| Waits(db, n, b) && PromoteNumber(db, n, now) == PromoteOne(db, b, now);
      PromoteOneSettles(db, b, n, now);
    } else {
      forall b | b in db.requests && db.requests[b].state.Queued? ensures db.requests[b].sequence != n {
        assert !Waits(db, n, b);
      }
    }
  }

  lemma InvQueue(db: Database)
    requires Inv(db)
    ensures Owned(db) && SequencesDistinct(db)
  {
    hide IdsUsed, Owned, Singles, Apart, SequencesDistinct, NoOvertaking, ChainsRise, WritesSound, EvidenceSound;
  }

  lemma {:induction false} PromoteThroughSettles(db: Database, n: nat, now: Instant)
    requires Inv(db)
    ensures SettledThrough(PromoteThrough(db, n, now), n, now) && OffersLive(PromoteThrough(db, n, now), now)
    ensures PromoteThrough(db, n, now).queueSequence == db.queueSequence
  {
    hide Inv, Owned, SequencesDistinct, SettledThrough, OffersLive, PromoteNumber;
    if n == 0 {
      OffersLiveAfterExpiry(db, now);
    } else {
      var d := PromoteThrough(db, n - 1, now);
      PromoteThroughSettles(db, n - 1, now);
      PromoteThroughKeeps(db, n - 1, now);
      InvQueue(d);
      PromoteNumberSettles(d, n, now);
    }
  }

  lemma OffersLiveAfterExpiry(db: Database, now: Instant)
    requires Inv(db)
    ensures SettledThrough(ExpireOffers(db, now), 0, now) && OffersLive(ExpireOffers(db, now), now)
  {
    hide Blocked, Singles, Apart, QueueSound, WritesSound, EvidenceSound;
  }

  /** After promotion every waiting request has a reason to wait. */
  lemma PromoteConserves(db: Database, now: Instant)
    requires Inv(db)
    ensures Inv(Promote(db, now)) && Conserved(Promote(db, now))
  {
    PromoteKeeps(db, now);
    PromoteThroughSettles(db, db.queueSequence, now);
    hide Blocked, Singles, Apart, QueueSound, WritesSound, EvidenceSound, PromoteThrough;
  }

  lemma {:induction false} PromoteNothing(db: Database, n: nat, now: Instant)
    requires SettledThrough(db, db.queueSequence, now) && OffersLive(db, now) && n <= db.queueSequence
    ensures PromoteThrough(db, n, now) == db
  {
    hide Blocked;
    if n == 0 {
      assert ExpireOffers(db, now).requests == db.requests;
    } else {
      PromoteNothing(db, n - 1, now);
    }
  }

  /** Promoting twice at one instant is promoting once. */
  lemma PromoteIdempotent(db: Database, now: Instant)
    requires Inv(db)
    ensures Promote(Promote(db, now), now) == Promote(db, now)
  {
    hide Inv, PromoteThrough;
    PromoteThroughSettles(db, db.queueSequence, now);
    PromoteNothing(Promote(db, now), db.queueSequence, now);
  }

  ghost predicate WorkspaceHolds(db: Database, w: Name) {
    || (exists b :: b in db.leases && db.leases[b].task.workspace == w)
    || (exists b :: b in db.requests && db.requests[b].state.Offered? && db.requests[b].task.workspace == w)
  }

  lemma ClashWithin(w1: Name, r1: ResourceSet, w2: Name, r2: ResourceSet)
    requires Clash(w1, r1, w2, r2)
    ensures w1 == w2
  {
  }

  /** No deadlock: a workspace with a queue has a lease or an offer. */
  lemma {:induction false} QueueHasHolder(db: Database, b: Uuid)
    requires Conserved(db) && b in db.requests && db.requests[b].state.Queued?
    ensures WorkspaceHolds(db, db.requests[b].task.workspace)
    decreases db.requests[b].sequence
  {
    hide Clash;
    var r := db.requests[b];
    if EarlierWaiter(db, b) {
      var q :| q in db.requests && db.requests[q].state.Queued? && db.requests[q].sequence < r.sequence
               && Clash(r.task.workspace, r.resources, db.requests[q].task.workspace, db.requests[q].resources);
      ClashWithin(r.task.workspace, r.resources, db.requests[q].task.workspace, db.requests[q].resources);
      QueueHasHolder(db, q);
    } else if LeaseConflict(db, r.task, r.resources) {
      var q :| q in db.leases && db.leases[q].task != r.task
               && Clash(r.task.workspace, r.resources, db.leases[q].task.workspace, db.leases[q].resources);
      ClashWithin(r.task.workspace, r.resources, db.leases[q].task.workspace, db.leases[q].resources);
    } else if OfferConflict(db, r.task, r.resources) {
      var q :| q in db.requests && db.requests[q].state.Offered? && db.requests[q].task != r.task
               && Clash(r.task.workspace, r.resources, db.requests[q].task.workspace, db.requests[q].resources);
      ClashWithin(r.task.workspace, r.resources, db.requests[q].task.workspace, db.requests[q].resources);
    }
  }

  // ---------------------------------------------------------- maintenance

  lemma ForgetInactiveSettles(db: Database)
    requires Owned(db) && WritesSound(db)
    ensures Reduces(db, ForgetInactive(db)) && Owned(ForgetInactive(db)) && WritesSound(ForgetInactive(db))
  {
  }

  lemma ForgetInactiveKeeps(db: Database)
    requires Inv(db)
    ensures Inv(ForgetInactive(db))
  {
    hide *;
    Parts(db);
    ForgetInactiveSettles(db);
    ReduceKeeps(db, ForgetInactive(db));
  }

  lemma DrainOverdueKeeps(db: Database, now: Instant)
    requires Inv(db)
    ensures Inv(DrainOverdueWrites(db, now))
  {
    hide Inv;
    DrainKeeps(db, DrainOverdueWrites(db, now));
  }

  lemma ExpiryKeeps(db: Database, now: Instant)
    requires Inv(db)
    ensures Inv(ExpireTasksAndLeases(db, now))
  {
    hide Inv, ExpireTasks, ExpireLeases;
    ExpireTasksKeeps(db, now);
    ExpireLeasesKeeps(ExpireTasks(db, now), now);
  }

  lemma SweepKeeps(db: Database, now: Instant)
    requires Inv(db)
    ensures Inv(Sweep(db, now)) && Conserved(Sweep(db, now))
  {
    hide Inv, Conserved, Promote, ExpireTasksAndLeases;
    ExpiryKeeps(db, now);
    PromoteConserves(ExpireTasksAndLeases(db, now), now);
  }

  /** The periodic sweep keeps the invariant and leaves no request waiting without a reason. */
  lemma MaintainKeeps(db: Database, now: Instant)
    requires Inv(db)
    ensures Inv(Maintain(db, now)) && Conserved(Maintain(db, now))
  {
    hide Inv, Conserved, Promote, ExpireOffers, ExpireTasksAndLeases, ForgetInactive, DrainOverdueWrites;
    var d := ExpireTasksAndLeases(ExpireOffers(db, now), now);
    ExpireOffersKeeps(db, now);
    ExpiryKeeps(ExpireOffers(db, now), now);
    ForgetInactiveKeeps(d);
    DrainOverdueKeeps(ForgetInactive(d), now);
    PromoteConserves(DrainOverdueWrites(ForgetInactive(d), now), now);
  }
}
