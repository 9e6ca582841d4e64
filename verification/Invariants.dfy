/** What holds in every state the store can reach. */
module Invariants {
  import opened Resources
  import opened Tables
  import opened Sweeps

  /** Generated identifiers lie below the next one. */
  ghost predicate IdsUsed(db: Database) {
    && (forall b :: b in db.leases ==> b < db.nextUuid)
    && (forall b :: b in db.requests ==> b < db.nextUuid)
    && (forall a :: a in db.attempts ==> a < db.nextUuid && db.attempts[a].batch < db.nextUuid)
    && (forall e :: e in db.evidence ==> e.evidence < db.nextUuid)
  }

  ghost predicate TasksSound(db: Database) {
    forall t :: t in db.tasks ==>
      && db.tasks[t].settings.Valid()
      && (db.tasks[t].status.Draining? ==> db.tasks[t].terminal.Some? && db.tasks[t].terminal.value.IsTerminal())
  }

  /** Leases belong to their task's agent, and a terminal task has none. */
  ghost predicate LeasesOwned(db: Database) {
    forall b :: b in db.leases ==>
      && db.leases[b].task in db.tasks
      && db.leases[b].agent == db.tasks[db.leases[b].task].agent
      && !db.tasks[db.leases[b].task].status.IsTerminal()
      && (db.leases[b].releasePending <==> db.leases[b].state.LeaseDraining?)
      && db.leases[b].slots.Keys <= db.leases[b].resources.Keys
  }

  /** Requests belong to their task's agent, and only an active task has a pending one. */
  ghost predicate RequestsOwned(db: Database) {
    forall b :: b in db.requests ==>
      && db.requests[b].task in db.tasks
      && db.requests[b].agent == db.tasks[db.requests[b].task].agent
      && (db.requests[b].Pending() ==> db.tasks[db.requests[b].task].status.Active?)
      && (db.requests[b].state.Offered? ==> db.requests[b].offer.Some?)
      && 0 < db.requests[b].sequence <= db.queueSequence
  }

  ghost predicate OneLeasePerAgent(db: Database) {
    forall b, c |
      && b in db.leases && c in db.leases
      && db.leases[b].task.workspace == db.leases[c].task.workspace
      && db.leases[b].agent == db.leases[c].agent
      :: b == c
  }

  ghost predicate OnePendingPerTask(db: Database) {
    forall b, c |
      && b in db.requests && c in db.requests && db.requests[b].Pending() && db.requests[c].Pending()
      && db.requests[b].task == db.requests[c].task
      :: b == c
  }

  ghost predicate OneOfferPerAgent(db: Database) {
    forall b, c |
      && b in db.requests && c in db.requests
      && db.requests[b].state.Offered? && db.requests[c].state.Offered?
      && db.requests[b].task.workspace == db.requests[c].task.workspace
      && db.requests[b].agent == db.requests[c].agent
      :: b == c
  }

  ghost predicate NoHoldAndWait(db: Database) {
    forall b, c :: b in db.leases && c in db.requests && db.requests[c].Pending() ==>
      db.leases[b].task != db.requests[c].task
  }

  // -------------------------------------------------- reservations apart

  ghost predicate LeasesApart(db: Database) {
    forall b, c :: b in db.leases && c in db.leases && db.leases[b].task != db.leases[c].task ==>
      !Clash(db.leases[b].task.workspace, db.leases[b].resources,
             db.leases[c].task.workspace, db.leases[c].resources)
  }

  ghost predicate LeasesOffersApart(db: Database) {
    forall b, c |
      && b in db.leases && c in db.requests && db.requests[c].state.Offered?
      && db.leases[b].task != db.requests[c].task
      :: !Clash(db.leases[b].task.workspace, db.leases[b].resources,
                db.requests[c].task.workspace, db.requests[c].resources)
  }

  ghost predicate OffersApart(db: Database) {
    forall b, c |
      && b in db.requests && c in db.requests
      && db.requests[b].state.Offered? && db.requests[c].state.Offered?
      && db.requests[b].task != db.requests[c].task
      :: !Clash(db.requests[b].task.workspace, db.requests[b].resources,
                db.requests[c].task.workspace, db.requests[c].resources)
  }

  // ---------------------------------------------------------------- queue

  ghost predicate SequencesDistinct(db: Database) {
    forall b, c |
      && b in db.requests && c in db.requests
      && db.requests[b].sequence == db.requests[c].sequence
      :: b == c
  }

  /** A live offer overlaps no request that has waited longer. */
  ghost predicate NoOvertaking(db: Database) {
    forall b, c |
      && b in db.requests && c in db.requests
      && db.requests[b].state.Offered? && db.requests[c].state.Queued?
      && db.requests[c].sequence < db.requests[b].sequence
      :: !Clash(db.requests[b].task.workspace, db.requests[b].resources,
                db.requests[c].task.workspace, db.requests[c].resources)
  }

  ghost predicate ChainsRise(db: Database) {
    forall b :: b in db.requests && db.requests[b].state.Superseded? ==>
      && db.requests[b].supersededBy.Some?
      && db.requests[b].supersededBy.value in db.requests
      && db.requests[db.requests[b].supersededBy.value].task == db.requests[b].task
      && db.requests[b].sequence < db.requests[db.requests[b].supersededBy.value].sequence
      && db.requests[b].resources.Keys <= db.requests[db.requests[b].supersededBy.value].resources.Keys
  }

  // --------------------------------------------------------------- writes

  /** An executing write holds a slot on everything it started from, under a live lease. */
  ghost predicate WritesHoldSlots(db: Database) {
    forall a :: a in db.attempts && db.attempts[a].status.Executing? ==>
      && db.attempts[a].batch in db.leases
      && db.attempts[a].start != []
      && forall o :: o in db.attempts[a].start ==>
           o.key.id in db.leases[db.attempts[a].batch].slots
           && db.leases[db.attempts[a].batch].slots[o.key.id] == a
  }

  ghost predicate SlotsHaveWrites(db: Database) {
    forall b, i :: b in db.leases && i in db.leases[b].slots ==>
      && db.leases[b].slots[i] in db.attempts
      && db.attempts[db.leases[b].slots[i]].status.Executing?
      && db.attempts[db.leases[b].slots[i]].batch == b
  }

  ghost predicate AttemptsOwned(db: Database) {
    forall a :: a in db.attempts && db.attempts[a].batch in db.leases ==>
      && db.leases[db.attempts[a].batch].task == db.attempts[a].task
      && (db.attempts[a].status.Uncertain? ==> db.leases[db.attempts[a].batch].state.LeaseDraining?)
  }

  /** The batch of a pending request has never been a lease. */
  ghost predicate PendingUnused(db: Database) {
    forall b :: b in db.requests && db.requests[b].Pending() ==>
      b !in db.leases && forall a :: a in db.attempts ==> db.attempts[a].batch != b
  }

  // ------------------------------------------------------------- evidence

  ghost predicate ResourcesRecorded(db: Database) {
    && (forall b, i :: b in db.leases && i in db.leases[b].resources ==>
          ResourceRef(db.leases[b].task.workspace, i) in db.resources)
    && (forall b, i :: b in db.requests && db.requests[b].Pending() && i in db.requests[b].resources ==>
          ResourceRef(db.requests[b].task.workspace, i) in db.resources)
  }

  ghost predicate EvidenceRecorded(db: Database) {
    forall e :: e in db.evidence ==>
      && db.evidence[e].observation.key.id == e.id
      && db.evidence[e].observation.key.workspace == db.evidence[e].task.workspace
      && ResourceRef(db.evidence[e].task.workspace, e.id) in db.resources
  }

  /** Valid evidence shows the recorded state and generation of its resource. */
  ghost predicate EvidenceCurrent(db: Database) {
    forall e :: e in db.evidence && db.evidence[e].valid ==>
      var r := ResourceRef(db.evidence[e].task.workspace, e.id);
      && r in db.resources
      && db.resources[r].state == db.evidence[e].observation.observed
      && db.resources[r].generation == db.evidence[e].observation.generation
  }

  /** No valid read of another task overlaps a resource a write is in flight on. */
  ghost predicate ReadsClearOfWrites(db: Database) {
    forall e, b, i |
      && e in db.evidence && db.evidence[e].valid && db.evidence[e].source.FromRead?
      && b in db.leases && db.leases[b].task != db.evidence[e].task
      && i in db.leases[b].slots && i in db.leases[b].resources
      :: !Overlap(db.evidence[e].observation.key, Key(db.leases[b].task.workspace, db.leases[b].resources, i))
  }

  // ------------------------------------------------------------ the whole

  ghost predicate Owned(db: Database) {
    TasksSound(db) && LeasesOwned(db) && RequestsOwned(db)
  }

  ghost predicate Singles(db: Database) {
    OneLeasePerAgent(db) && OnePendingPerTask(db) && OneOfferPerAgent(db) && NoHoldAndWait(db) && PendingUnused(db)
  }

  ghost predicate Apart(db: Database) {
    LeasesApart(db) && LeasesOffersApart(db) && OffersApart(db)
  }

  ghost predicate QueueSound(db: Database) {
    SequencesDistinct(db) && NoOvertaking(db) && ChainsRise(db)
  }

  ghost predicate WritesSound(db: Database) {
    WritesHoldSlots(db) && SlotsHaveWrites(db) && AttemptsOwned(db)
  }

  ghost predicate EvidenceSound(db: Database) {
    ResourcesRecorded(db) && EvidenceRecorded(db) && EvidenceCurrent(db) && ReadsClearOfWrites(db)
  }

  ghost predicate Inv(db: Database) {
    IdsUsed(db) && Owned(db) && Singles(db) && Apart(db) && QueueSound(db) && WritesSound(db) && EvidenceSound(db)
  }

  lemma Parts(db: Database)
    requires Inv(db)
    ensures IdsUsed(db) && Owned(db) && Singles(db) && Apart(db) && QueueSound(db) && WritesSound(db) && EvidenceSound(db)
  {
    hide IdsUsed, Owned, Singles, Apart, QueueSound, WritesSound, EvidenceSound;
  }

  lemma Whole(db: Database)
    requires IdsUsed(db) && Owned(db) && Singles(db) && Apart(db) && QueueSound(db) && WritesSound(db) && EvidenceSound(db)
    ensures Inv(db)
  {
    hide IdsUsed, Owned, Singles, Apart, QueueSound, WritesSound, EvidenceSound;
  }

  /** Every waiting request has a reason to wait. */
  ghost predicate Conserved(db: Database) {
    forall b :: b in db.requests && db.requests[b].state.Queued? ==> Blocked(db, b)
  }
}
