/** What time does to the tables: offers, tasks and leases expire, and waiting
    requests are promoted in queue order (crates/stateful-store/src/store_v2.rs). */
module Sweeps {
  import opened Basics
  import opened Resources
  import opened Tables

  ghost function ExpireOffers(db: Database, now: Instant): Database {
    db.(requests := map b | b in db.requests ::
          var r := db.requests[b];
          if r.state.Offered? && r.offer.Some? && r.offer.value.expiresAt <= now then r.(state := Expired) else r)
  }

  predicate TaskDue(db: Database, t: TaskKey, now: Instant) {
    t in db.tasks && db.tasks[t].status.Active? && db.tasks[t].expiresAt <= now
  }

  function Drained(l: Lease): Lease { l.(state := LeaseDraining, releasePending := true) }

  /** An overdue task fails and loses its leases and requests at once, unless one
      of its writes is unresolved: then it and its leases drain. */
  ghost function ExpireTasks(db: Database, now: Instant): Database {
    db.(tasks := map t | t in db.tasks ::
          if TaskDue(db, t, now)
          then db.tasks[t].(status := if Busy(db, t) then Draining else Failed, terminal := Some(Failed))
          else db.tasks[t],
        requests := map b | b in db.requests ::
          if TaskDue(db, db.requests[b].task, now) && db.requests[b].Pending()
          then db.requests[b].(state := Withdrawn) else db.requests[b],
        leases := map b | b in db.leases
                       && !(TaskDue(db, db.leases[b].task, now) && !Busy(db, db.leases[b].task)) ::
          if TaskDue(db, db.leases[b].task, now) then Drained(db.leases[b]) else db.leases[b])
  }

  predicate LeaseDue(l: Lease, now: Instant) { l.state.LeaseActive? && l.expiresAt <= now }

  /** An overdue active lease is dropped if idle and drains if a slot is taken. */
  ghost function ExpireLeases(db: Database, now: Instant): Database {
    db.(leases := map b | b in db.leases && !(LeaseDue(db.leases[b], now) && db.leases[b].slots == map[]) ::
          if LeaseDue(db.leases[b], now) then Drained(db.leases[b]) else db.leases[b])
  }

  ghost function ExpireTasksAndLeases(db: Database, now: Instant): Database {
    ExpireLeases(ExpireTasks(db, now), now)
  }

  // ------------------------------------------------------------ promotion

  ghost predicate EarlierWaiter(db: Database, b: Uuid)
    requires b in db.requests
  {
    exists q :: q in db.requests && db.requests[q].state.Queued?
             && db.requests[q].sequence < db.requests[b].sequence
             && Clash(db.requests[b].task.workspace, db.requests[b].resources,
                      db.requests[q].task.workspace, db.requests[q].resources)
  }

  /** Why a queued request is not offered its resources. */
  ghost predicate Blocked(db: Database, b: Uuid)
    requires b in db.requests
  {
    var r := db.requests[b];
    || EarlierWaiter(db, b)
    || AgentSlotOccupied(db, r.task.workspace, r.agent, None)
    || HasTaskLease(db, r.task)
    || AgentHasOffer(db, r.task.workspace, r.agent)
    || Conflict(db, r.task, r.resources)
  }

  function Min(x: int, y: int): int { if x <= y then x else y }

  /** The step promotion takes for one queued request. */
  ghost function PromoteOne(db: Database, b: Uuid, now: Instant): Database
    requires b in db.requests && db.requests[b].task in db.tasks
  {
    var r := db.requests[b];
    var task := db.tasks[r.task];
    if !task.status.Active? || r.expiresAt <= now then
      db.(requests := db.requests[b := r.(state := Expired)])
    else if Blocked(db, b) then db
    else
      var offer := Offer(db.nextUuid, now, Min(now + task.settings.offerTtl, r.expiresAt));
      db.(requests := db.requests[b := r.(state := Offered, version := r.version + 1, offer := Some(offer))],
          nextUuid := db.nextUuid + 1)
  }

  ghost predicate Waits(db: Database, n: nat, b: Uuid) {
    b in db.requests && db.requests[b].state.Queued? && db.requests[b].sequence == n
    && db.requests[b].task in db.tasks
  }

  ghost function PromoteNumber(db: Database, n: nat, now: Instant): Database {
    if exists b :: Waits(db, n, b) then
      var b :| Waits(db, n, b);
      PromoteOne(db, b, now)
    else db
  }

  /** Promotion of every request queued under a number up to `n`, lowest first. */
  ghost function PromoteThrough(db: Database, n: nat, now: Instant): Database {
    if n == 0 then ExpireOffers(db, now)
    else PromoteNumber(PromoteThrough(db, n - 1, now), n, now)
  }

  ghost function Promote(db: Database, now: Instant): Database {
    PromoteThrough(db, db.queueSequence, now)
  }

  ghost function Sweep(db: Database, now: Instant): Database {
    Promote(ExpireTasksAndLeases(db, now), now)
  }

  ghost function Maintain(db: Database, now: Instant): Database {
    var d := ExpireTasksAndLeases(ExpireOffers(db, now), now);
    Promote(DrainOverdueWrites(ForgetInactive(d), now), now)
  }

  predicate Inactive(db: Database, t: TaskKey) { t in db.tasks && !db.tasks[t].status.Active? }

  function AbandonedReads(db: Database): map<Name, ReadAttempt> {
    map r | r in db.readAttempts ::
      if db.readAttempts[r].status.ReadStarted? && Inactive(db, db.readAttempts[r].task)
      then db.readAttempts[r].(status := ReadFailed) else db.readAttempts[r]
  }

  function AbandonedIntents(db: Database): map<IntentKey, Intent> {
    map i | i in db.intents ::
      if db.intents[i].status.Held? && Inactive(db, i.task)
      then db.intents[i].(status := Released) else db.intents[i]
  }

  function AbandonedEvidence(db: Database): map<EvidenceKey, Evidence> {
    map e | e in db.evidence ::
      if Inactive(db, db.evidence[e].task) then db.evidence[e].(valid := false) else db.evidence[e]
  }

  /** Reads, read intents and evidence of tasks that are no longer active lapse. */
  function ForgetInactive(db: Database): Database {
    db.(readAttempts := AbandonedReads(db), intents := AbandonedIntents(db), evidence := AbandonedEvidence(db))
  }

  /** Leases whose executing write is past its deadline drain. */
  ghost function DrainOverdueWrites(db: Database, now: Instant): Database {
    db.(leases := map b | b in db.leases ::
          if db.leases[b].state.LeaseActive?
             && (exists a :: a in db.attempts && db.attempts[a].batch == b
                          && db.attempts[a].status.Executing? && db.attempts[a].deadline <= now)
          then Drained(db.leases[b]) else db.leases[b])
  }
}
