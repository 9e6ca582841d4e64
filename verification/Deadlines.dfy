/** What time alone does to each task, lease and request, row by row
    (crates/stateful-store/src/store_v2.rs). */
module Deadlines {
  import opened Basics
  import opened Tables
  import opened Sweeps
  import opened Invariants
  import opened SweepProofs
  import opened Safety
  import StoreSteps

  // ------------------------------------------------------------- promotion

  /** The offer a waiting request gets: made now, good for the task's offer time but no
      longer than the request itself, under a new version. */
  ghost predicate IsOffered(task: Task, r: Request, r': Request, now: Instant) {
    && r'.offer.Some? && r' == r.(state := Offered, version := r.version + 1, offer := r'.offer)
    && r'.offer.value.offeredAt == now
    && r'.offer.value.expiresAt ==
       if now + task.settings.offerTtl <= r.expiresAt then now + task.settings.offerTtl else r.expiresAt
  }

  predicate OfferOver(r: Request, now: Instant) {
    r.state == Offered && r.offer.Some? && r.offer.value.expiresAt <= now
  }

  /** A queued request lapses at its deadline or with its task. */
  predicate WaitOver(task: Task, r: Request, now: Instant) { task.status != Active || r.expiresAt <= now }

  /** What promotion may make of a request. */
  ghost predicate Fate(task: Task, r: Request, r': Request, now: Instant) {
    if r.state == Queued then
      if WaitOver(task, r, now) then r' == r.(state := Expired) else r' == r || IsOffered(task, r, r', now)
    else if OfferOver(r, now) then r' == r.(state := Expired)
    else r' == r
  }

  /** Promotion has come to the numbers up to `n` and no further. */
  ghost predicate FateUpTo(db: Database, e: Database, n: nat, now: Instant, b: Uuid)
    requires b in db.requests && db.requests[b].task in db.tasks
  {
    && b in e.requests
    && if db.requests[b].state == Queued && n < db.requests[b].sequence then e.requests[b] == db.requests[b]
       else Fate(db.tasks[db.requests[b].task], db.requests[b], e.requests[b], now)
  }

  lemma OfferTerms(db: Database, b: Uuid, now: Instant)
    requires b in db.requests && db.requests[b].task in db.tasks && !Lapsed(db, b, now) && !Blocked(db, b)
    ensures b in PromoteOne(db, b, now).requests
    ensures IsOffered(db.tasks[db.requests[b].task], db.requests[b], PromoteOne(db, b, now).requests[b], now)
  {
    hide Blocked;
  }

  lemma PromoteOneFate(db: Database, b: Uuid, now: Instant)
    requires b in db.requests && db.requests[b].state == Queued && db.requests[b].task in db.tasks
    ensures b in PromoteOne(db, b, now).requests
    ensures Fate(db.tasks[db.requests[b].task], db.requests[b], PromoteOne(db, b, now).requests[b], now)
  {
    hide Blocked, PromoteOne, IsOffered;
    if Lapsed(db, b, now) {
      PromoteOneLapses(db, b, now);
    } else if Blocked(db, b) {
      PromoteOneStays(db, b, now);
    } else {
      OfferTerms(db, b, now);
    }
  }

  lemma ExpireOffersFate(db: Database, now: Instant, b: Uuid)
    requires b in db.requests && db.requests[b].task in db.tasks && 0 < db.requests[b].sequence
    ensures FateUpTo(db, ExpireOffers(db, now), 0, now, b)
  {
  }

  lemma PromoteNumberFate(db: Database, d: Database, n: nat, now: Instant, b: Uuid)
    requires SequencesDistinct(db) && OnlyRequests(db, d) && n > 0
    requires b in db.requests && db.requests[b].task in db.tasks && FateUpTo(db, d, n - 1, now, b)
    ensures FateUpTo(db, PromoteNumber(d, n, now), n, now, b)
  {
    hide PromoteOne, OnlyRequests;
    SameNumbers(db, d);
    if exists c :: Waits(d, n, c) {
      var c :| Waits(d, n, c) && PromoteNumber(d, n, now) == PromoteOne(d, c, now);
      hide PromoteNumber;
      if c == b {
        PromoteOneFate(d, b, now);
      } else {
        StoreSteps.PromoteOneOthers(d, c, b, now);
        assert db.requests[c].sequence == n;
        assert db.requests[b].sequence != n;
      }
    } else {
      assert !Waits(d, n, b);
    }
  }

  lemma SameNumbers(d: Database, e: Database)
    requires OnlyRequests(d, e)
    ensures e.tasks == d.tasks && e.requests.Keys == d.requests.Keys
    ensures forall b :: b in d.requests ==> e.requests[b].sequence == d.requests[b].sequence && e.requests[b].task == d.requests[b].task
  {
  }

  lemma {:induction false} PromoteThroughFate(db: Database, n: nat, now: Instant, b: Uuid)
    requires SequencesDistinct(db) && b in db.requests && db.requests[b].task in db.tasks && 0 < db.requests[b].sequence
    ensures FateUpTo(db, PromoteThrough(db, n, now), n, now, b)
  {
    hide PromoteNumber, FateUpTo, OnlyRequests, SequencesDistinct;
    if n == 0 {
      ExpireOffersFate(db, now, b);
    } else {
      PromoteThroughFate(db, n - 1, now, b);
      PromoteFrame(db, n - 1, now);
      PromoteNumberFate(db, PromoteThrough(db, n - 1, now), n, now, b);
    }
  }

  /** What becomes of each request when the queue moves. */
  lemma PromoteFate(db: Database, now: Instant, b: Uuid)
    requires Inv(db) && b in db.requests
    ensures b in Promote(db, now).requests && db.requests[b].task in db.tasks
    ensures Fate(db.tasks[db.requests[b].task], db.requests[b], Promote(db, now).requests[b], now)
  {
    hide PromoteThrough, Fate;
    RequestKnown(db, b);
    PromoteThroughFate(db, db.queueSequence, now, b);
  }

  lemma RequestKnown(db: Database, b: Uuid)
    requires Inv(db) && b in db.requests
    ensures db.requests[b].task in db.tasks && 0 < db.requests[b].sequence <= db.queueSequence && SequencesDistinct(db)
    ensures db.requests[b].Pending() ==> db.tasks[db.requests[b].task].status.Active?
  {
    hide IdsUsed, Singles, Apart, WritesSound, EvidenceSound;
  }

  // ---------------------------------------------------------------- expiry

  /** A write of the task has not been accounted for and its lease is still there. */
  ghost predicate Unaccounted(db: Database, t: TaskKey) {
    exists a :: a in db.attempts && db.attempts[a].task == t && db.attempts[a].batch in db.leases
             && (db.attempts[a].status == Executing || db.attempts[a].status == Uncertain)
  }

  ghost predicate Overdue(db: Database, t: TaskKey, now: Instant) {
    t in db.tasks && db.tasks[t].status == Active && db.tasks[t].expiresAt <= now
  }

  /** An overdue task has failed; it drains first if a write of it is unaccounted for. */
  ghost function TaskFate(db: Database, t: TaskKey, now: Instant): Task
    requires t in db.tasks
  {
    if !Overdue(db, t, now) then db.tasks[t]
    else db.tasks[t].(status := if Unaccounted(db, t) then Draining else Failed, terminal := Some(Failed))
  }

  /** A lease goes with its overdue task, or at its own deadline if idle; if there is a
      write to wait for it drains instead. */
  ghost function LeaseFate(db: Database, b: Uuid, now: Instant): Option<Lease>
    requires b in db.leases
  {
    var l := db.leases[b];
    if Overdue(db, l.task, now) then
      if Unaccounted(db, l.task) then Some(l.(state := LeaseDraining, releasePending := true)) else None
    else if l.state == LeaseActive && l.expiresAt <= now then
      if l.slots == map[] then None else Some(l.(state := LeaseDraining, releasePending := true))
    else Some(l)
  }

  ghost predicate LeaseMeets(db: Database, e: Database, b: Uuid, now: Instant)
    requires b in db.leases
  {
    match LeaseFate(db, b, now)
    case None => b !in e.leases
    case Some(l) => b in e.leases && e.leases[b] == l
  }

  lemma TasksExpire(db: Database, now: Instant, t: TaskKey)
    requires t in db.tasks
    ensures t in ExpireTasks(db, now).tasks && ExpireTasks(db, now).tasks[t] == TaskFate(db, t, now)
  {
    hide Busy, Unaccounted;
    BusyMeant(db, t);
  }

  lemma LeaseWithTask(db: Database, now: Instant, b: Uuid)
    requires b in db.leases
    ensures var d, l := ExpireTasks(db, now), db.leases[b];
            if !Overdue(db, l.task, now) then b in d.leases && d.leases[b] == l
            else if Unaccounted(db, l.task) then b in d.leases && d.leases[b] == Drained(l)
            else b !in d.leases
  {
    hide Busy, Unaccounted;
    BusyMeant(db, db.leases[b].task);
  }

  lemma LeaseAtDeadline(d: Database, now: Instant, b: Uuid)
    ensures var e := ExpireLeases(d, now);
            if b !in d.leases then b !in e.leases
            else if d.leases[b].state == LeaseActive && d.leases[b].expiresAt <= now then
              if d.leases[b].slots == map[] then b !in e.leases else b in e.leases && e.leases[b] == Drained(d.leases[b])
            else b in e.leases && e.leases[b] == d.leases[b]
  {
  }

  lemma LeasesExpire(db: Database, now: Instant, b: Uuid)
    requires b in db.leases
    ensures LeaseMeets(db, ExpireLeases(ExpireTasks(db, now), now), b, now)
  {
    hide ExpireTasks, ExpireLeases, Unaccounted, Overdue;
    LeaseWithTask(db, now, b);
    LeaseAtDeadline(ExpireTasks(db, now), now, b);
  }

  lemma ExpiryFates(db: Database, now: Instant)
    ensures var e := ExpireTasksAndLeases(db, now);
            && e.tasks.Keys == db.tasks.Keys && (forall t :: t in db.tasks ==> e.tasks[t] == TaskFate(db, t, now))
            && (forall b :: b in e.leases ==> b in db.leases)
            && (forall b :: b in db.leases ==> LeaseMeets(db, e, b, now))
  {
    hide TaskFate, LeaseMeets, Busy;
    ExpiryAddsNothing(db, now);
    forall t | t in db.tasks ensures ExpireTasksAndLeases(db, now).tasks[t] == TaskFate(db, t, now) { TasksExpire(db, now, t); }
    forall b | b in db.leases ensures LeaseMeets(db, ExpireTasksAndLeases(db, now), b, now) { LeasesExpire(db, now, b); }
  }

  lemma ExpiryAddsNothing(db: Database, now: Instant)
    ensures var e := ExpireTasksAndLeases(db, now);
            e.tasks == ExpireTasks(db, now).tasks && e.tasks.Keys == db.tasks.Keys && e.leases.Keys <= db.leases.Keys
  {
    hide Busy;
  }

  lemma BusyMeant(db: Database, t: TaskKey)
    ensures Busy(db, t) <==> Unaccounted(db, t)
  {
  }

  lemma ExpiryRequests(db: Database, now: Instant, b: Uuid)
    requires b in db.requests
    ensures var e := ExpireTasksAndLeases(db, now);
            && b in e.requests
            && e.requests[b] ==
               if Overdue(db, db.requests[b].task, now) && db.requests[b].Pending()
               then db.requests[b].(state := Withdrawn) else db.requests[b]
  {
    hide Busy;
  }

  /** What the sweeps before every command make of each task and each lease. */
  lemma SweepFates(db: Database, now: Instant)
    ensures var e := Sweep(db, now);
            && e.tasks.Keys == db.tasks.Keys && (forall t :: t in db.tasks ==> e.tasks[t] == TaskFate(db, t, now))
            && (forall b :: b in e.leases ==> b in db.leases)
            && (forall b :: b in db.leases ==> LeaseMeets(db, e, b, now))
  {
    hide ExpireTasksAndLeases, PromoteThrough, TaskFate, LeaseFate;
    ExpiryFates(db, now);
    var d := ExpireTasksAndLeases(db, now);
    PromoteFrame(d, d.queueSequence, now);
  }

  /** What they make of each request: it goes with its overdue task, lapses at its own
      deadline or its offer's, or waits on, possibly with an offer. */
  lemma SweepRequests(db: Database, now: Instant, b: Uuid)
    requires Inv(db) && b in db.requests
    ensures b in Sweep(db, now).requests && db.requests[b].task in db.tasks
    ensures var r, r' := db.requests[b], Sweep(db, now).requests[b];
            if Overdue(db, r.task, now) then r' == if r.state == Queued || r.state == Offered then r.(state := Withdrawn) else r
            else Fate(db.tasks[r.task], r, r', now)
  {
    hide Inv, ExpireTasksAndLeases, Promote, Fate, Unaccounted;
    var d := ExpireTasksAndLeases(db, now);
    ExpiryKeeps(db, now);
    RequestKnown(db, b);
    ExpiryRequests(db, now, b);
    ExpiryFates(db, now);
    PromoteFate(d, now, b);
    if Overdue(db, db.requests[b].task, now) { SettledStays(d.tasks[db.requests[b].task], d.requests[b], Promote(d, now).requests[b], now); }
  }

  lemma SettledStays(task: Task, r: Request, r': Request, now: Instant)
    requires Fate(task, r, r', now) && r.state != Queued && r.state != Offered
    ensures r' == r
  {
  }

  // ----------------------------------------------------------- maintenance

  predicate Gone(tasks: map<TaskKey, Task>, t: TaskKey) { t in tasks && tasks[t].status != Active }

  ghost predicate ReadsForgotten(tasks: map<TaskKey, Task>, d: map<Name, ReadAttempt>, e: map<Name, ReadAttempt>) {
    && e.Keys == d.Keys
    && forall r | r in d ::
         e[r] == if d[r].status == ReadStarted && Gone(tasks, d[r].task) then d[r].(status := ReadFailed) else d[r]
  }

  ghost predicate IntentsForgotten(tasks: map<TaskKey, Task>, d: map<IntentKey, Intent>, e: map<IntentKey, Intent>) {
    && e.Keys == d.Keys
    && forall i | i in d :: e[i] == if d[i].status == Held && Gone(tasks, i.task) then d[i].(status := Released) else d[i]
  }

  ghost predicate EvidenceForgotten(tasks: map<TaskKey, Task>, d: map<EvidenceKey, Evidence>, e: map<EvidenceKey, Evidence>) {
    && e.Keys == d.Keys
    && forall k | k in d :: e[k] == if Gone(tasks, d[k].task) then d[k].(valid := false) else d[k]
  }

  /** Reads, read intents and evidence of tasks that are not active lapse; all others stay. */
  ghost predicate Forgets(db: Database, e: Database) {
    && ReadsForgotten(e.tasks, db.readAttempts, e.readAttempts)
    && IntentsForgotten(e.tasks, db.intents, e.intents)
    && EvidenceForgotten(e.tasks, db.evidence, e.evidence)
  }

  lemma ForgetExact(d: Database)
    ensures Forgets(d, ForgetInactive(d))
  {
    hide Gone;
    forall t ensures Inactive(d, t) <==> Gone(d.tasks, t) { GoneMeant(d, t); }
    hide Inactive;
    assert ReadsForgotten(d.tasks, d.readAttempts, AbandonedReads(d));
    assert IntentsForgotten(d.tasks, d.intents, AbandonedIntents(d));
    assert EvidenceForgotten(d.tasks, d.evidence, AbandonedEvidence(d));
  }

  lemma GoneMeant(d: Database, t: TaskKey)
    ensures Inactive(d, t) <==> Gone(d.tasks, t)
  {
  }

  /** An executing write under the lease is past its deadline. */
  ghost predicate WriteOverdue(db: Database, b: Uuid, now: Instant) {
    exists a :: a in db.attempts && db.attempts[a].batch == b && db.attempts[a].status == Executing
             && db.attempts[a].deadline <= now
  }

  /** Maintenance treats tasks and leases as the sweeps do, and besides lets leases drain
      whose write is past its deadline and forgets what inactive tasks knew. */
  lemma MaintenanceFates(db: Database, now: Instant)
    ensures var e := Maintain(db, now);
            && e.tasks.Keys == db.tasks.Keys && (forall t :: t in db.tasks ==> e.tasks[t] == TaskFate(db, t, now))
            && (forall b :: b in e.leases ==> b in db.leases)
            && (forall b :: b in db.leases ==>
                  match LeaseFate(db, b, now)
                  case None => b !in e.leases
                  case Some(l) =>
                    && b in e.leases
                    && e.leases[b] == if l.state == LeaseActive && WriteOverdue(db, b, now) then Drained(l) else l)
            && Forgets(db, e)
  {
    hide ExpireTasksAndLeases, Promote, TaskFate, LeaseFate, Forgets, ForgetInactive, DrainOverdueWrites, WriteOverdue;
    var o := ExpireOffers(db, now);
    var d := ExpireTasksAndLeases(o, now);
    var f := ForgetInactive(d);
    var g := DrainOverdueWrites(f, now);
    ExpiryFates(o, now);
    SameFates(db, o, now);
    ForgetExact(d);
    ForgetFrame(d);
    DrainFrame(f, now);
    ExpiryKnows(o, now);
    PromoteKnows(g, now);
    SameForgets(db, d, f, Promote(g, now));
    forall b | b in d.leases
      ensures b in g.leases
      ensures g.leases[b] == if d.leases[b].state == LeaseActive && WriteOverdue(db, b, now) then Drained(d.leases[b]) else d.leases[b]
    {
      DrainExact(f, now, b);
      SameOverdue(db, f, b, now);
    }
  }

  lemma SameForgets(c: Database, d: Database, f: Database, e: Database)
    requires Forgets(d, f) && f.tasks == e.tasks && f.readAttempts == e.readAttempts
    requires f.intents == e.intents && f.evidence == e.evidence
    requires c.readAttempts == d.readAttempts && c.intents == d.intents && c.evidence == d.evidence
    ensures Forgets(c, e)
  {
    hide ReadsForgotten, IntentsForgotten, EvidenceForgotten;
  }

  lemma SameFates(db: Database, o: Database, now: Instant)
    requires o == db.(requests := o.requests)
    ensures forall t :: t in db.tasks ==> TaskFate(o, t, now) == TaskFate(db, t, now)
    ensures forall b :: b in db.leases ==> LeaseFate(o, b, now) == LeaseFate(db, b, now)
  {
    hide Unaccounted;
    forall t ensures Unaccounted(o, t) <==> Unaccounted(db, t) { SameUnaccounted(db, o, t); }
  }

  lemma SameUnaccounted(d: Database, e: Database, t: TaskKey)
    requires e.attempts == d.attempts && e.leases == d.leases
    ensures Unaccounted(d, t) <==> Unaccounted(e, t)
  {
  }

  lemma SameOverdue(d: Database, e: Database, b: Uuid, now: Instant)
    requires e.attempts == d.attempts
    ensures WriteOverdue(d, b, now) <==> WriteOverdue(e, b, now)
  {
  }

  lemma ForgetFrame(d: Database)
    ensures ForgetInactive(d) == d.(readAttempts := ForgetInactive(d).readAttempts, intents := ForgetInactive(d).intents,
                                    evidence := ForgetInactive(d).evidence)
  {
    hide AbandonedReads, AbandonedIntents, AbandonedEvidence;
  }

  lemma DrainFrame(d: Database, now: Instant)
    ensures DrainOverdueWrites(d, now) == d.(leases := DrainOverdueWrites(d, now).leases)
    ensures DrainOverdueWrites(d, now).leases.Keys == d.leases.Keys
  {
  }

  lemma DrainExact(d: Database, now: Instant, b: Uuid)
    requires b in d.leases
    ensures b in DrainOverdueWrites(d, now).leases
    ensures DrainOverdueWrites(d, now).leases[b] ==
            if d.leases[b].state == LeaseActive && WriteOverdue(d, b, now) then Drained(d.leases[b]) else d.leases[b]
  {
  }

  lemma ExpiryKnows(db: Database, now: Instant)
    ensures var e := ExpireTasksAndLeases(db, now);
            && e.readAttempts == db.readAttempts && e.intents == db.intents && e.evidence == db.evidence
            && e.attempts == db.attempts
  {
    hide Busy;
  }

  lemma PromoteKnows(db: Database, now: Instant)
    ensures var e := Promote(db, now);
            && e.readAttempts == db.readAttempts && e.intents == db.intents && e.evidence == db.evidence
            && e.tasks == db.tasks && e.leases == db.leases
  {
    hide PromoteThrough;
    PromoteFrame(db, db.queueSequence, now);
  }

  /** Maintenance looks at offers first: one that is over has expired even if its task is
      overdue too. Otherwise it treats requests as the sweeps do. */
  lemma MaintenanceRequests(db: Database, now: Instant, b: Uuid)
    requires Inv(db) && b in db.requests
    ensures b in Maintain(db, now).requests && db.requests[b].task in db.tasks
    ensures var r, r' := db.requests[b], Maintain(db, now).requests[b];
            if OfferOver(r, now) then r' == r.(state := Expired)
            else if Overdue(db, r.task, now) && (r.state == Queued || r.state == Offered) then r' == r.(state := Withdrawn)
            else if Overdue(db, r.task, now) then r' == r
            else Fate(db.tasks[r.task], r, r', now)
  {
    hide Inv, ExpireTasksAndLeases, Promote, Fate, Unaccounted, ForgetInactive, DrainOverdueWrites;
    var o := ExpireOffers(db, now);
    var d := ExpireTasksAndLeases(o, now);
    var g := DrainOverdueWrites(ForgetInactive(d), now);
    RequestKnown(db, b);
    ExpireOffersKeeps(db, now);
    ExpiryKeeps(o, now);
    ForgetInactiveKeeps(d);
    DrainOverdueKeeps(ForgetInactive(d), now);
    ForgetFrame(d);
    DrainFrame(ForgetInactive(d), now);
    ExpiryRequests(o, now, b);
    ExpiryFates(o, now);
    PromoteFate(g, now, b);
    var t, r, r' := g.tasks[db.requests[b].task], g.requests[b], Promote(g, now).requests[b];
    if r.state != Queued && r.state != Offered {
      SettledStays(t, r, r', now);
    }
  }
}
