/** One row at a time: the loops of the store, which change the tables row by row,
    add up to the closed forms. */
module StoreSteps {
  import opened Basics
  import opened Resources
  import opened Operations
  import opened Tables
  import opened Sweeps
  import opened ReadEvidence
  import opened Commands
  import opened Invariants
  import opened SweepProofs
  import opened EvidenceProofs
  import opened Safety

  // ---------------------------------------------------------- revocation

  /** The effect on one table row after another of revoking the listed evidence. */
  function RevokeRows(db: Database, hit: set<EvidenceKey>): Database {
    db.(intents := map i | i in db.intents ::
          if db.intents[i].status.Held? && EvidenceKey(db.intents[i].evidence, i.id) in hit
          then db.intents[i].(status := Revoked) else db.intents[i],
        evidence := map e | e in db.evidence ::
          if e in hit then db.evidence[e].(valid := false) else db.evidence[e])
  }

  lemma RevokeNoRows(db: Database)
    ensures RevokeRows(db, {}) == db
  {
    assert RevokeRows(db, {}).intents == db.intents;
    assert RevokeRows(db, {}).evidence == db.evidence;
  }

  lemma RevokeMoreRows(db: Database, a: set<EvidenceKey>, b: set<EvidenceKey>)
    ensures RevokeRows(RevokeRows(db, a), b) == RevokeRows(db, a + b)
  {
    var l, r := RevokeRows(RevokeRows(db, a), b), RevokeRows(db, a + b);
    assert l.intents == r.intents;
    assert l.evidence == r.evidence;
  }

  ghost predicate HitRows(db: Database, keys: set<ResourceKey>, exclude: Option<TaskKey>, hit: set<EvidenceKey>) {
    forall e :: e in hit <==> e in db.evidence && Hit(db.evidence[e], keys, exclude)
  }

  lemma RevokeAllRows(db: Database, keys: set<ResourceKey>, exclude: Option<TaskKey>, hit: set<EvidenceKey>)
    requires HitRows(db, keys, exclude, hit)
    ensures RevokeRows(db, hit) == Revoke(db, keys, exclude)
  {
    hide Hit;
    var l, r := RevokeRows(db, hit), Revoke(db, keys, exclude);
    assert l.intents == r.intents;
    assert l.evidence == r.evidence;
  }

  lemma RevokeNothing(db: Database, exclude: Option<TaskKey>)
    ensures Revoke(db, {}, exclude) == db
  {
    assert Revoke(db, {}, exclude).intents == db.intents;
    assert Revoke(db, {}, exclude).evidence == db.evidence;
  }

  lemma HitEither(db: Database, a: set<ResourceKey>, b: set<ResourceKey>, exclude: Option<TaskKey>,
                  hitA: set<EvidenceKey>, hitB: set<EvidenceKey>)
    requires HitRows(db, a, exclude, hitA) && HitRows(RevokeRows(db, hitA), b, exclude, hitB)
    ensures HitRows(db, a + b, exclude, hitA + hitB)
  {
    hide Overlap;
  }

  /** Revoking for one set of keys after another is revoking for their union. */
  lemma RevokeTwice(db: Database, a: set<ResourceKey>, b: set<ResourceKey>, exclude: Option<TaskKey>)
    ensures Revoke(Revoke(db, a, exclude), b, exclude) == Revoke(db, a + b, exclude)
  {
    hide Hit, Revoke, RevokeRows;
    var hitA := set e | e in db.evidence && Hit(db.evidence[e], a, exclude);
    RevokeAllRows(db, a, exclude, hitA);
    var d := RevokeRows(db, hitA);
    var hitB := set e | e in d.evidence && Hit(d.evidence[e], b, exclude);
    RevokeAllRows(d, b, exclude, hitB);
    HitEither(db, a, b, exclude, hitA, hitB);
    RevokeMoreRows(db, hitA, hitB);
    RevokeAllRows(db, a + b, exclude, hitA + hitB);
  }

  // ----------------------------------------------------------- projection

  /** One observation recorded. */
  ghost function SyncOne(db: Database, o: Observation): Database {
    var d := if Changes(db, o) then Revoke(db, {o.key}, None) else db;
    d.(resources := db.resources[ResourceRef(o.key.workspace, o.key.id) := NextRow(db, o)])
  }

  lemma SyncNothing(db: Database, workspace: Name)
    ensures Sync(db, workspace, map[]) == db
  {
    var none: ObservationSet := map[];
    assert ChangedKeys(db, none) == {};
    RevokeNothing(db, None);
    assert Sync(db, workspace, none).resources == db.resources;
  }

  lemma SyncProjection(db: Database, workspace: Name, os: ObservationSet, o: Observation)
    requires o.key.id !in os && o.key.workspace == workspace
    ensures Changes(Sync(db, workspace, os), o) == Changes(db, o)
    ensures NextRow(Sync(db, workspace, os), o) == NextRow(db, o)
    ensures Sync(db, workspace, os[o.key.id := o]).resources
         == Sync(db, workspace, os).resources[ResourceRef(workspace, o.key.id) := NextRow(db, o)]
  {
    hide Sync, NextRow, Changes;
    var here := ResourceRef(workspace, o.key.id);
    var more := os[o.key.id := o];
    SyncRows(db, workspace, os, here);
    NextRowLocal(db, Sync(db, workspace, os), o);
    var l, r := Sync(db, workspace, more).resources, Sync(db, workspace, os).resources;
    forall ref: ResourceRef
      ensures ref in l <==> ref in r || ref == here
      ensures ref in l ==> l[ref] == if ref == here then NextRow(db, o) else r[ref]
    {
      SyncRows(db, workspace, os, ref);
      SyncRows(db, workspace, more, ref);
      assert ref != here && ref.workspace == workspace && ref.id in more ==> ref.id in os && more[ref.id] == os[ref.id];
    }
    assert l == r[here := NextRow(db, o)];
  }

  lemma NextRowLocal(d: Database, e: Database, o: Observation)
    requires var r := ResourceRef(o.key.workspace, o.key.id);
             (r in d.resources <==> r in e.resources) && (r in d.resources ==> e.resources[r] == d.resources[r])
    ensures Changes(e, o) == Changes(d, o) && NextRow(e, o) == NextRow(d, o)
  {
  }

  lemma SyncChanged(db: Database, os: ObservationSet, o: Observation)
    requires o.key.id !in os
    ensures ChangedKeys(db, os[o.key.id := o]) == ChangedKeys(db, os) + (if Changes(db, o) then {o.key} else {})
  {
    hide Changes;
    var more := os[o.key.id := o];
    forall i | i in os ensures more[i] == os[i] { }
    forall k | k in ChangedKeys(db, os) ensures k in ChangedKeys(db, more) {
      var i :| i in os && Changes(db, os[i]) && os[i].key == k;
      assert more[i] == os[i];
    }
    if Changes(db, o) { assert more[o.key.id] == o; }
  }

  lemma SyncFrame(db: Database, workspace: Name, os: ObservationSet)
    ensures Sync(db, workspace, os) == Revoke(db, ChangedKeys(db, os), None).(resources := Sync(db, workspace, os).resources)
  {
    hide Revoke, ChangedKeys, NextRow;
  }

  lemma RevokeApart(db: Database, keys: set<ResourceKey>, resources: map<ResourceRef, ResourceRow>)
    ensures Revoke(db.(resources := resources), keys, None) == Revoke(db, keys, None).(resources := resources)
    ensures Revoke(db, keys, None).resources == db.resources
  {
    hide Hit;
  }

  /** Recording one more observation. */
  lemma SyncNext(db: Database, workspace: Name, os: ObservationSet, o: Observation)
    requires o.key.id !in os && o.key.workspace == workspace
    ensures Sync(db, workspace, os[o.key.id := o]) == SyncOne(Sync(db, workspace, os), o)
    ensures Changes(Sync(db, workspace, os), o) == Changes(db, o)
    ensures NextRow(Sync(db, workspace, os), o) == NextRow(db, o)
  {
    hide Revoke, ChangedKeys, NextRow, Changes, Sync;
    var d := Sync(db, workspace, os);
    var more := os[o.key.id := o];
    SyncProjection(db, workspace, os, o);
    SyncChanged(db, os, o);
    SyncFrame(db, workspace, os);
    SyncFrame(db, workspace, more);
    var revoked := Revoke(db, ChangedKeys(db, os), None);
    if Changes(db, o) {
      RevokeTwice(db, ChangedKeys(db, os), {o.key}, None);
      RevokeApart(revoked, {o.key}, d.resources);
      RevokeApart(db, ChangedKeys(db, os), d.resources);
    } else {
      assert ChangedKeys(db, os) + {} == ChangedKeys(db, os);
    }
  }

  lemma SyncedRow(db: Database, workspace: Name, os: ObservationSet, o: Observation)
    requires o.key.id in os && os[o.key.id] == o && o.key.workspace == workspace
    ensures ResourceRef(workspace, o.key.id) in Sync(db, workspace, os).resources
    ensures Sync(db, workspace, os).resources[ResourceRef(workspace, o.key.id)] == NextRow(db, o)
  {
    hide Sync, NextRow;
    SyncRows(db, workspace, os, ResourceRef(workspace, o.key.id));
  }

  // --------------------------------------------------------------- expiry

  /** The tasks in `done` have been expired, the others not yet. */
  ghost function ExpireSome(db: Database, done: set<TaskKey>): Database {
    db.(tasks := map t | t in db.tasks ::
          if t in done
          then db.tasks[t].(status := if Busy(db, t) then Draining else Failed, terminal := Some(Failed))
          else db.tasks[t],
        requests := map b | b in db.requests ::
          if db.requests[b].task in done && db.requests[b].Pending()
          then db.requests[b].(state := Withdrawn) else db.requests[b],
        leases := map b | b in db.leases && !(db.leases[b].task in done && !Busy(db, db.leases[b].task)) ::
          if db.leases[b].task in done then Drained(db.leases[b]) else db.leases[b])
  }

  function AllDrained(leases: map<Uuid, Lease>, t: TaskKey): map<Uuid, Lease> {
    map b | b in leases :: if leases[b].task == t then Drained(leases[b]) else leases[b]
  }

  function AllDropped(leases: map<Uuid, Lease>, t: TaskKey): map<Uuid, Lease> {
    map b | b in leases && leases[b].task != t :: leases[b]
  }

  /** One task expired, as the statements of the loop body do it. */
  function ExpireTask(db: Database, t: TaskKey, busy: bool): Database
    requires t in db.tasks
  {
    db.(tasks := db.tasks[t := db.tasks[t].(status := if busy then Draining else Failed, terminal := Some(Failed))],
        requests := Undone(db.requests, t),
        leases := if busy then AllDrained(db.leases, t) else AllDropped(db.leases, t))
  }

  lemma ExpireNone(db: Database)
    ensures ExpireSome(db, {}) == db
  {
    hide Busy;
    var e := ExpireSome(db, {});
    assert e.tasks == db.tasks;
    assert e.requests == db.requests;
    assert e.leases == db.leases;
  }

  /** Expiring other tasks does not decide whether this one is busy. */
  lemma StillBusy(db: Database, done: set<TaskKey>, t: TaskKey)
    requires AttemptsOwned(db) && t !in done
    ensures Busy(ExpireSome(db, done), t) == Busy(db, t)
  {
    var e := ExpireSome(db, done);
    if Busy(db, t) {
      var a :| && a in db.attempts && db.attempts[a].task == t
               && (db.attempts[a].status.Executing? || db.attempts[a].status.Uncertain?) && db.attempts[a].batch in db.leases;
      assert e.attempts[a].batch in e.leases;
    }
  }

  lemma NextTasks(db: Database, done: set<TaskKey>, t: TaskKey)
    requires t in db.tasks && t !in done
    ensures t in ExpireSome(db, done).tasks
    ensures ExpireTask(ExpireSome(db, done), t, Busy(db, t)).tasks == ExpireSome(db, done + {t}).tasks
  {
    hide Busy;
  }

  lemma NextRequests(db: Database, done: set<TaskKey>, t: TaskKey)
    requires t in ExpireSome(db, done).tasks && t !in done
    ensures ExpireTask(ExpireSome(db, done), t, Busy(db, t)).requests == ExpireSome(db, done + {t}).requests
  {
    hide Busy;
  }

  lemma NextLeases(db: Database, done: set<TaskKey>, t: TaskKey)
    requires t in ExpireSome(db, done).tasks && t !in done
    ensures ExpireTask(ExpireSome(db, done), t, Busy(db, t)).leases == ExpireSome(db, done + {t}).leases
  {
    hide Busy;
  }

  lemma NextFrame(db: Database, done: set<TaskKey>, t: TaskKey)
    requires t in ExpireSome(db, done).tasks
    ensures var l, r := ExpireTask(ExpireSome(db, done), t, Busy(db, t)), ExpireSome(db, done + {t});
            l == r.(tasks := l.tasks, requests := l.requests, leases := l.leases)
  {
    hide Busy, Undone, AllDrained, AllDropped;
  }

  lemma ExpireNext(db: Database, done: set<TaskKey>, t: TaskKey)
    requires AttemptsOwned(db) && t in db.tasks && t !in done
    ensures t in ExpireSome(db, done).tasks
    ensures ExpireTask(ExpireSome(db, done), t, Busy(db, t)) == ExpireSome(db, done + {t})
  {
    hide Busy, ExpireSome, ExpireTask;
    NextTasks(db, done, t);
    NextRequests(db, done, t);
    NextLeases(db, done, t);
    NextFrame(db, done, t);
  }

  lemma ExpireAll(db: Database, done: set<TaskKey>, now: Instant)
    requires forall t :: t in done <==> TaskDue(db, t, now)
    ensures ExpireSome(db, done) == ExpireTasks(db, now)
  {
    hide Busy, TaskDue;
    var l, r := ExpireSome(db, done), ExpireTasks(db, now);
    assert l.tasks == r.tasks;
    assert l.requests == r.requests;
    assert l.leases == r.leases;
  }

  function ExpireSomeLeases(leases: map<Uuid, Lease>, done: set<Uuid>): map<Uuid, Lease> {
    map b | b in leases && !(b in done && leases[b].slots == map[]) ::
      if b in done then Drained(leases[b]) else leases[b]
  }

  // ------------------------------------------------------------ promotion

  /** Nobody waits under a number above `m` and up to `n`. */
  ghost predicate NobodyBetween(db: Database, m: nat, n: nat) {
    forall b :: b in db.requests && db.requests[b].state.Queued? ==> !(m < db.requests[b].sequence <= n)
  }

  lemma {:induction false} PromoteGap(db: Database, m: nat, n: nat, now: Instant)
    requires m <= n && NobodyBetween(db, m, n)
    ensures PromoteThrough(db, n, now) == PromoteThrough(db, m, now)
  {
    hide PromoteOne, ExpireOffers;
    if m < n {
      PromoteGap(db, m, n - 1, now);
      var d := PromoteThrough(db, n - 1, now);
      PromoteFrame(db, n - 1, now);
      assert !exists b :: Waits(d, n, b);
    }
  }

  lemma WaitsAlone(d: Database, n: nat, b: Uuid, c: Uuid)
    requires SequencesDistinct(d) && Waits(d, n, b) && Waits(d, n, c)
    ensures b == c
  {
  }

  lemma PromoteNumberHit(d: Database, n: nat, b: Uuid, now: Instant)
    requires SequencesDistinct(d) && Waits(d, n, b)
    ensures PromoteNumber(d, n, now) == PromoteOne(d, b, now)
  {
    hide PromoteOne, SequencesDistinct;
    var c :| Waits(d, n, c) && PromoteNumber(d, n, now) == PromoteOne(d, c, now);
    WaitsAlone(d, n, b, c);
  }

  lemma PromoteHit(db: Database, n: nat, b: Uuid, now: Instant)
    requires Inv(db) && 0 < n && Waits(PromoteThrough(db, n - 1, now), n, b)
    ensures PromoteThrough(db, n, now) == PromoteOne(PromoteThrough(db, n - 1, now), b, now)
  {
    hide Inv, PromoteNumber, ExpireOffers, Waits, PromoteOne;
    PromoteThroughKeeps(db, n - 1, now);
    InvQueue(PromoteThrough(db, n - 1, now));
    PromoteNumberHit(PromoteThrough(db, n - 1, now), n, b, now);
  }

  /** The resources of everyone who stays in the queue up to a number. */
  ghost predicate BlockedKeys(db: Database, n: nat, blocked: set<ResourceKey>) {
    forall k :: k in blocked <==>
      exists q :: && q in db.requests && db.requests[q].state.Queued? && db.requests[q].sequence <= n
                  && k in Keys(db.requests[q].task.workspace, db.requests[q].resources)
  }

  predicate OverlapsBlocked(blocked: set<ResourceKey>, workspace: Name, rs: ResourceSet) {
    exists i, k :: i in rs && k in blocked && Overlap(ResourceKey(workspace, i, rs[i]), k)
  }

  /** The growing list of blocked resources stands for the earlier waiters. */
  lemma BlockedListExact(db: Database, b: Uuid, blocked: set<ResourceKey>)
    requires b in db.requests && 0 < db.requests[b].sequence && BlockedKeys(db, db.requests[b].sequence - 1, blocked)
    ensures OverlapsBlocked(blocked, db.requests[b].task.workspace, db.requests[b].resources) <==> EarlierWaiter(db, b)
  {
    hide Overlap;
    var r := db.requests[b];
    var w := r.task.workspace;
    if OverlapsBlocked(blocked, w, r.resources) {
      var i, k :| i in r.resources && k in blocked && Overlap(ResourceKey(w, i, r.resources[i]), k);
      var q :| && q in db.requests && db.requests[q].state.Queued? && db.requests[q].sequence <= r.sequence - 1
               && k in Keys(db.requests[q].task.workspace, db.requests[q].resources);
      assert Clash(w, r.resources, db.requests[q].task.workspace, db.requests[q].resources);
    }
    if EarlierWaiter(db, b) {
      var q :| && q in db.requests && db.requests[q].state.Queued? && db.requests[q].sequence < r.sequence
               && Clash(w, r.resources, db.requests[q].task.workspace, db.requests[q].resources);
      var v := db.requests[q].task.workspace;
      var i, j :| i in r.resources && j in db.requests[q].resources
                  && Overlap(ResourceKey(w, i, r.resources[i]), ResourceKey(v, j, db.requests[q].resources[j]));
      var k := ResourceKey(v, j, db.requests[q].resources[j]);
      assert k in Keys(v, db.requests[q].resources);
      assert k in blocked;
    }
  }

  lemma BlockedKeysAcrossGap(db: Database, m: nat, n: nat, blocked: set<ResourceKey>)
    requires BlockedKeys(db, m, blocked) && m <= n && NobodyBetween(db, m, n)
    ensures BlockedKeys(db, n, blocked)
  {
    hide Keys;
  }

  lemma BlockedKeysLeft(d: Database, e: Database, b: Uuid, n: nat, blocked: set<ResourceKey>)
    requires SequencesDistinct(d) && b in d.requests && d.requests[b].sequence == n + 1 && BlockedKeys(d, n, blocked)
    requires e.requests.Keys == d.requests.Keys && !e.requests[b].state.Queued?
    requires forall q :: q in d.requests && q != b ==> e.requests[q] == d.requests[q]
    ensures BlockedKeys(e, n + 1, blocked)
  {
    hide Keys;
    forall k ensures k in blocked <==>
      exists q :: && q in e.requests && e.requests[q].state.Queued? && e.requests[q].sequence <= n + 1
                  && k in Keys(e.requests[q].task.workspace, e.requests[q].resources)
    {
      if k in blocked {
        var q :| && q in d.requests && d.requests[q].state.Queued? && d.requests[q].sequence <= n
                 && k in Keys(d.requests[q].task.workspace, d.requests[q].resources);
        assert e.requests[q] == d.requests[q];
      }
    }
  }

  lemma BlockedKeysStayed(d: Database, b: Uuid, n: nat, blocked: set<ResourceKey>)
    requires SequencesDistinct(d) && b in d.requests && d.requests[b].state.Queued? && d.requests[b].sequence == n + 1
    requires BlockedKeys(d, n, blocked)
    ensures BlockedKeys(d, n + 1, blocked + Keys(d.requests[b].task.workspace, d.requests[b].resources))
  {
    hide Keys;
  }

  lemma NobodyQueuedAfter(start: Database, now: Instant, m: nat, n: nat)
    requires NobodyBetween(start, m, n)
    ensures NobodyBetween(PromoteThrough(start, m, now), m, n)
  {
    hide PromoteThrough;
    PromoteFrame(start, m, now);
  }

  lemma ExpireOffersQueue(start: Database, now: Instant)
    requires RequestsOwned(start)
    ensures var d := ExpireOffers(start, now);
            && d.requests.Keys == start.requests.Keys
            && forall b :: b in start.requests && (start.requests[b].state.Queued? || d.requests[b].state.Queued?) ==>
                 d.requests[b] == start.requests[b] && 0 < start.requests[b].sequence
  {
  }

  lemma NobodyBlocked(start: Database, d: Database)
    requires d.requests.Keys == start.requests.Keys
    requires forall b :: b in start.requests && d.requests[b].state.Queued? ==> 0 < d.requests[b].sequence
    ensures BlockedKeys(d, 0, {})
  {
    hide Keys;
  }

  lemma PromoteStart(start: Database, now: Instant)
    requires Inv(start)
    ensures var d := ExpireOffers(start, now);
            && PromoteThrough(start, 0, now) == d
            && SequencesDistinct(d) && BlockedKeys(d, 0, {})
            && d.requests.Keys == start.requests.Keys
            && forall b :: b in start.requests && (start.requests[b].state.Queued? || d.requests[b].state.Queued?) ==>
                 d.requests[b] == start.requests[b] && 0 < start.requests[b].sequence
  {
    ExpireOffersKeeps(start, now);
    InvQueue(start);
    InvQueue(ExpireOffers(start, now));
    hide Inv, SequencesDistinct, ExpireOffers, TasksSound, LeasesOwned, RequestsOwned, BlockedKeys;
    ExpireOffersQueue(start, now);
    NobodyBlocked(start, ExpireOffers(start, now));
  }

  /** The rest of the queue, in order: everyone who waited under a number above `m`. */
  ghost predicate WaitingFrom(start: Database, m: nat, line: seq<Uuid>) {
    && (forall b :: b in line <==> b in start.requests && start.requests[b].state.Queued? && m < start.requests[b].sequence)
    && (forall i, j :: 0 <= i < j < |line| ==> start.requests[line[i]].sequence < start.requests[line[j]].sequence)
  }

  lemma PromoteOneOthers(d: Database, c: Uuid, b: Uuid, now: Instant)
    requires c in d.requests && d.requests[c].state.Queued? && d.requests[c].task in d.tasks && b in d.requests && b != c
    ensures b in PromoteOne(d, c, now).requests && PromoteOne(d, c, now).requests[b] == d.requests[b]
  {
    hide Blocked, PromoteOne, Lapsed;
    if Lapsed(d, c, now) {
      PromoteOneLapses(d, c, now);
    } else if Blocked(d, c) {
      PromoteOneStays(d, c, now);
    } else {
      PromoteOneOffers(d, c, now);
    }
  }

  lemma {:induction false} StillWaiting(start: Database, m: nat, b: Uuid, now: Instant)
    requires b in start.requests && start.requests[b].state.Queued? && m < start.requests[b].sequence
    ensures b in PromoteThrough(start, m, now).requests && PromoteThrough(start, m, now).requests[b] == start.requests[b]
  {
    hide PromoteOne;
    if m > 0 {
      StillWaiting(start, m - 1, b, now);
      var d := PromoteThrough(start, m - 1, now);
      if exists c :: Waits(d, m, c) {
        var c :| Waits(d, m, c) && PromoteNumber(d, m, now) == PromoteOne(d, c, now);
        PromoteOneOthers(d, c, b, now);
      }
    }
  }

  lemma LineMoves(start: Database, m: nat, line: seq<Uuid>)
    requires Inv(start) && WaitingFrom(start, m, line) && line != []
    ensures line[0] in start.requests && start.requests[line[0]].state.Queued? && start.requests[line[0]].task in start.tasks
    ensures var n := start.requests[line[0]].sequence;
            m < n <= start.queueSequence && NobodyBetween(start, m, n - 1) && WaitingFrom(start, n, line[1..])
  {
    InvQueue(start);
    hide Inv, TasksSound, LeasesOwned;
    var n := start.requests[line[0]].sequence;
    assert line[0] in line;
    forall b | b in start.requests && start.requests[b].state.Queued? && m < start.requests[b].sequence
      ensures n <= start.requests[b].sequence && (n < start.requests[b].sequence ==> b in line[1..])
    {
      var j :| 0 <= j < |line| && line[j] == b;
    }
    forall b | b in line[1..] ensures b in line && n < start.requests[b].sequence {
      var j :| 0 <= j < |line[1..]| && line[1..][j] == b;
      assert line[j + 1] == b;
    }
  }

  lemma NextInLine(start: Database, m: nat, line: seq<Uuid>, now: Instant)
    requires Inv(start) && WaitingFrom(start, m, line) && line != []
    ensures line[0] in start.requests
    ensures var n := start.requests[line[0]].sequence;
            var d := PromoteThrough(start, m, now);
            && m < n <= start.queueSequence
            && NobodyBetween(d, m, n - 1) && Waits(d, n, line[0]) && SequencesDistinct(d)
            && PromoteThrough(start, n, now) == PromoteOne(d, line[0], now)
            && WaitingFrom(start, n, line[1..])
  {
    hide PromoteThrough, PromoteOne, Inv, WaitingFrom, NobodyBetween, SequencesDistinct, Owned;
    var b := line[0];
    LineMoves(start, m, line);
    var n := start.requests[b].sequence;
    PromoteGap(start, m, n - 1, now);
    NobodyQueuedAfter(start, now, m, n - 1);
    StillWaiting(start, m, b, now);
    PromoteFrame(start, m, now);
    PromoteHit(start, n, b, now);
    PromoteThroughKeeps(start, m, now);
    InvQueue(PromoteThrough(start, m, now));
  }

  lemma EndOfLine(start: Database, m: nat, now: Instant)
    requires m <= start.queueSequence && WaitingFrom(start, m, [])
    ensures PromoteThrough(start, m, now) == Promote(start, now)
  {
    hide PromoteThrough;
    assert NobodyBetween(start, m, start.queueSequence) by {
      forall b | b in start.requests && start.requests[b].state.Queued? ensures start.requests[b].sequence <= m {
        assert b !in [];
      }
    }
    PromoteGap(start, m, start.queueSequence, now);
  }

  // -------------------------------------------------------------- evidence

  /** The evidence table with the rows of one new piece for some of the observations. */
  ghost predicate RowsAdded(before: map<EvidenceKey, Evidence>, after: map<EvidenceKey, Evidence>, id: Uuid,
                            done: set<ResourceId>, rows: map<ResourceId, Evidence>)
    requires done <= rows.Keys
  {
    && (forall k :: k in after <==> k in before || (k.evidence == id && k.id in done))
    && (forall k :: k in after ==> after[k] == if k.evidence == id && k.id in done then rows[k.id] else before[k])
  }

  lemma NoRowsAdded(before: map<EvidenceKey, Evidence>, id: Uuid, rows: map<ResourceId, Evidence>)
    ensures RowsAdded(before, before, id, {}, rows)
  {
  }

  lemma RowAdded(before: map<EvidenceKey, Evidence>, after: map<EvidenceKey, Evidence>, id: Uuid, done: set<ResourceId>,
                 rows: map<ResourceId, Evidence>, i: ResourceId)
    requires done <= rows.Keys && i in rows && RowsAdded(before, after, id, done, rows)
    ensures RowsAdded(before, after[EvidenceKey(id, i) := rows[i]], id, done + {i}, rows)
  {
    assert forall k: EvidenceKey :: k.evidence == id && k.id == i ==> k == EvidenceKey(id, i);
  }

  lemma AllRowsAdded(before: map<EvidenceKey, Evidence>, after: map<EvidenceKey, Evidence>, id: Uuid,
                     rows: map<ResourceId, Evidence>)
    requires RowsAdded(before, after, id, rows.Keys, rows)
    ensures after == before + FileUnder(id, rows)
  {
    hide FileUnder;
  }

  /** The intents moved to the new evidence for some of the observations. */
  ghost predicate IntentsMoved(before: map<IntentKey, Intent>, after: map<IntentKey, Intent>, t: TaskKey,
                               ids: set<ResourceId>, intent: Intent) {
    && (forall k :: k in after <==> k in before || (k.task == t && k.id in ids))
    && (forall k :: k in after ==> after[k] == if k.task == t && k.id in ids then intent else before[k])
  }

  lemma IntentMoved(before: map<IntentKey, Intent>, after: map<IntentKey, Intent>, t: TaskKey, ids: set<ResourceId>,
                    intent: Intent, i: ResourceId)
    requires IntentsMoved(before, after, t, ids, intent)
    ensures IntentsMoved(before, after[IntentKey(t, i) := intent], t, ids + {i}, intent)
  {
    assert forall k: IntentKey :: k.task == t && k.id == i ==> k == IntentKey(t, i);
  }

  lemma AllIntentsMoved(before: map<IntentKey, Intent>, after: map<IntentKey, Intent>, t: TaskKey, ids: set<ResourceId>,
                        intent: Intent)
    requires IntentsMoved(before, after, t, ids, intent)
    ensures after == before + HoldUnder(t, ids, intent)
  {
    hide HoldUnder;
  }

  function ReadRows(db: Database, t: TaskKey, os: ObservationSet, startedAt: Instant): (r: map<ResourceId, Evidence>)
    ensures r.Keys == os.Keys
  {
    map i | i in os :: Evidence(t, FromRead(startedAt), os[i], ReadCounts(db, t, os[i], startedAt))
  }

  function OwnRows(t: TaskKey, os: ObservationSet): (r: map<ResourceId, Evidence>)
    ensures r.Keys == os.Keys
  {
    map i | i in os :: Evidence(t, FromOwnWrite, os[i], true)
  }

  /** The resources among some that the read moves the task's intent on. */
  ghost function MovedAmong(db: Database, t: TaskKey, os: ObservationSet, startedAt: Instant, done: set<ResourceId>)
    : set<ResourceId>
    requires done <= os.Keys
  {
    set i | i in done && IntentMoves(db, t, os[i], startedAt)
  }

  /** The evidence of a read recorded for some of its observations. */
  ghost predicate RecordedSome(db: Database, e: Database, id: Uuid, t: TaskKey, os: ObservationSet, startedAt: Instant,
                               done: set<ResourceId>)
    requires done <= os.Keys
  {
    && e == db.(evidence := e.evidence, intents := e.intents)
    && RowsAdded(db.evidence, e.evidence, id, done, ReadRows(db, t, os, startedAt))
    && IntentsMoved(db.intents, e.intents, t, MovedAmong(db, t, os, startedAt, done), Intent(id, Held, startedAt))
  }

  lemma RecordedNone(db: Database, id: Uuid, t: TaskKey, os: ObservationSet, startedAt: Instant)
    ensures RecordedSome(db, db, id, t, os, startedAt, {})
  {
    hide ReadRows, IntentMoves;
  }

  /** One row of evidence inserted, and the intent moved to it if it counts. */
  function InsertEvidence(db: Database, id: Uuid, t: TaskKey, i: ResourceId, o: Observation, startedAt: Instant): Database {
    db.(evidence := db.evidence[EvidenceKey(id, i) := Evidence(t, FromRead(startedAt), o, ReadCounts(db, t, o, startedAt))],
        intents := if IntentMoves(db, t, o, startedAt) then db.intents[IntentKey(t, i) := Intent(id, Held, startedAt)]
                   else db.intents)
  }

  /** What was recorded for other resources does not decide whether a row counts. */
  lemma SameVerdict(db: Database, e: Database, id: Uuid, t: TaskKey, os: ObservationSet, startedAt: Instant,
                    done: set<ResourceId>, o: Observation)
    requires done <= os.Keys && RecordedSome(db, e, id, t, os, startedAt, done) && o.key.id !in done
    ensures ReadCounts(e, t, o, startedAt) == ReadCounts(db, t, o, startedAt)
    ensures IntentMoves(e, t, o, startedAt) == IntentMoves(db, t, o, startedAt)
  {
    hide Overlap, ReadRows, RowsAdded;
  }

  lemma MovedNext(db: Database, t: TaskKey, os: ObservationSet, startedAt: Instant, done: set<ResourceId>, i: ResourceId)
    requires done <= os.Keys && i in os && i !in done
    ensures MovedAmong(db, t, os, startedAt, done + {i})
         == MovedAmong(db, t, os, startedAt, done) + (if IntentMoves(db, t, os[i], startedAt) then {i} else {})
  {
    hide IntentMoves;
  }

  lemma RowNext(db: Database, e: Database, id: Uuid, t: TaskKey, os: ObservationSet, startedAt: Instant,
                done: set<ResourceId>, i: ResourceId)
    requires done <= os.Keys && i in os && RowsAdded(db.evidence, e.evidence, id, done, ReadRows(db, t, os, startedAt))
    requires ReadCounts(e, t, os[i], startedAt) == ReadCounts(db, t, os[i], startedAt)
    ensures RowsAdded(db.evidence, InsertEvidence(e, id, t, i, os[i], startedAt).evidence, id, done + {i},
                      ReadRows(db, t, os, startedAt))
  {
    hide ReadCounts, IntentMoves, RowsAdded;
    RowAdded(db.evidence, e.evidence, id, done, ReadRows(db, t, os, startedAt), i);
  }

  lemma IntentNext(db: Database, e: Database, id: Uuid, t: TaskKey, os: ObservationSet, startedAt: Instant,
                   done: set<ResourceId>, i: ResourceId)
    requires done <= os.Keys && i in os && i !in done
    requires IntentsMoved(db.intents, e.intents, t, MovedAmong(db, t, os, startedAt, done), Intent(id, Held, startedAt))
    requires IntentMoves(e, t, os[i], startedAt) == IntentMoves(db, t, os[i], startedAt)
    ensures IntentsMoved(db.intents, InsertEvidence(e, id, t, i, os[i], startedAt).intents, t,
                         MovedAmong(db, t, os, startedAt, done + {i}), Intent(id, Held, startedAt))
  {
    hide ReadCounts, IntentMoves, IntentsMoved, MovedAmong;
    var ids := MovedAmong(db, t, os, startedAt, done);
    MovedNext(db, t, os, startedAt, done, i);
    IntentMoved(db.intents, e.intents, t, ids, Intent(id, Held, startedAt), i);
    assert ids + {} == ids;
  }

  lemma RecordedNext(db: Database, e: Database, id: Uuid, t: TaskKey, os: ObservationSet, startedAt: Instant,
                     done: set<ResourceId>, i: ResourceId)
    requires done <= os.Keys && RecordedSome(db, e, id, t, os, startedAt, done)
    requires i in os && i !in done && os[i].key.id == i
    ensures RecordedSome(db, InsertEvidence(e, id, t, i, os[i], startedAt), id, t, os, startedAt, done + {i})
  {
    SameVerdict(db, e, id, t, os, startedAt, done, os[i]);
    hide ReadCounts, IntentMoves, RowsAdded, IntentsMoved, ReadRows, MovedAmong;
    RowNext(db, e, id, t, os, startedAt, done, i);
    IntentNext(db, e, id, t, os, startedAt, done, i);
  }

  lemma ReadRowsFiled(db: Database, e: Database, t: TaskKey, os: ObservationSet, startedAt: Instant)
    requires RowsAdded(db.evidence, e.evidence, db.nextUuid, os.Keys, ReadRows(db, t, os, startedAt))
    ensures e.evidence == RecordRead(db, t, os, startedAt).evidence
  {
    hide ReadCounts, IntentMoves, FileUnder, HoldUnder, RowsAdded;
    AllRowsAdded(db.evidence, e.evidence, db.nextUuid, ReadRows(db, t, os, startedAt));
  }

  lemma ReadIntentsHeld(db: Database, e: Database, t: TaskKey, os: ObservationSet, startedAt: Instant)
    requires IntentsMoved(db.intents, e.intents, t, MovedAmong(db, t, os, startedAt, os.Keys),
                          Intent(db.nextUuid, Held, startedAt))
    ensures e.intents == RecordRead(db, t, os, startedAt).intents
  {
    hide ReadCounts, IntentMoves, FileUnder, HoldUnder, IntentsMoved;
    var ids := MovedAmong(db, t, os, startedAt, os.Keys);
    AllIntentsMoved(db.intents, e.intents, t, ids, Intent(db.nextUuid, Held, startedAt));
    assert ids == set i | i in os && IntentMoves(db, t, os[i], startedAt);
  }

  lemma RecordedAll(db: Database, e: Database, t: TaskKey, os: ObservationSet, startedAt: Instant)
    requires RecordedSome(db, e, db.nextUuid, t, os, startedAt, os.Keys)
    ensures e.(nextUuid := db.nextUuid + 1) == RecordRead(db, t, os, startedAt)
  {
    ReadRowsFiled(db, e, t, os, startedAt);
    ReadIntentsHeld(db, e, t, os, startedAt);
    hide ReadCounts, IntentMoves, FileUnder, HoldUnder, RowsAdded, IntentsMoved, ReadRows, MovedAmong;
  }

  lemma {:induction false} CanonicalFails(workspace: Name, os: seq<Observation>, n: nat)
    requires n <= |os| && Canonical(workspace, os[..n]).Err?
    ensures Canonical(workspace, os) == Canonical(workspace, os[..n])
    decreases |os|
  {
    if n < |os| {
      assert os[..|os| - 1][..n] == os[..n];
      CanonicalFails(workspace, os[..|os| - 1], n);
    } else {
      assert os[..n] == os;
    }
  }

  lemma SyncedEmpty(db: Database, os: ObservationSet)
    ensures Synced(db, os) == map[] <==> os == map[]
  {
    hide NextRow;
    assert Synced(db, os).Keys == os.Keys;
  }

  lemma CurrentIds(db: Database, workspace: Name, rs: ResourceSet)
    requires CurrentObservations(db, workspace, rs).Ok?
    ensures forall i :: i in CurrentObservations(db, workspace, rs).value ==>
              CurrentObservations(db, workspace, rs).value[i].key.id == i
  {
  }

  // ------------------------------------------------ what statements achieve

  /** `b` is the task's only pending request and comes after everybody numbered so far;
      what was pending of the task points to it, and nobody else's request moves. */
  ghost predicate LastInQueue(d: Database, e: Database, b: Uuid, t: TaskKey, rs: ResourceSet) {
    && b in e.requests && e.requests[b].state.Queued? && e.requests[b].task == t && e.requests[b].resources == rs
    && (forall q :: q in e.requests && e.requests[q].task == t && e.requests[q].Pending() ==> q == b)
    && (forall q :: q in e.requests && q != b && e.requests[q].sequence <= d.queueSequence ==>
          e.requests[q].sequence < e.requests[b].sequence)
    && (forall q :: q in d.requests && q != b ==>
          && q in e.requests
          && (if d.requests[q].task == t && d.requests[q].Pending()
              then e.requests[q].state.Superseded? && e.requests[q].supersededBy == Some(b)
              else e.requests[q] == d.requests[q]))
  }

  lemma EnqueuedLast(db: Database, ctx: Context, rs: ResourceSet, expiresAt: Instant)
    ensures LastInQueue(db, Enqueue(db, ctx, rs, expiresAt), db.nextUuid, ctx.Task(), rs)
  {
  }

  /** The task has nothing pending, holds no intent and knows nothing; what belongs to
      other tasks is as it was. */
  ghost predicate GivenUp(d: Database, e: Database, t: TaskKey) {
    && (forall b :: b in e.requests && e.requests[b].task == t ==> !e.requests[b].Pending())
    && (forall i :: i in e.intents && i.task == t ==> !e.intents[i].status.Held?)
    && (forall k :: k in e.evidence && e.evidence[k].task == t ==> !e.evidence[k].valid)
    && (forall b :: b in d.requests && d.requests[b].task != t ==> b in e.requests && e.requests[b] == d.requests[b])
    && (forall i :: i in d.intents && i.task != t ==> i in e.intents && e.intents[i] == d.intents[i])
    && (forall k :: k in d.evidence && d.evidence[k].task != t ==> k in e.evidence && e.evidence[k] == d.evidence[k])
    && (forall u :: u in d.tasks && u != t ==> u in e.tasks && e.tasks[u] == d.tasks[u])
  }

  lemma ClosedGivesUp(db: Database, t: TaskKey, terminal: TaskStatus)
    requires t in db.tasks
    ensures GivenUp(db, CloseTask(db, t, terminal), t)
  {
  }

  /** No slot is left to the attempt; every other slot, attempt and lease is as it was. */
  ghost predicate SlotsFreed(d: Database, e: Database, a: Uuid) {
    && (forall b, i :: b in e.leases && i in e.leases[b].slots ==> e.leases[b].slots[i] != a)
    && e.leases.Keys == d.leases.Keys
    && (forall b, i :: b in d.leases && i in d.leases[b].slots && d.leases[b].slots[i] != a ==>
          i in e.leases[b].slots && e.leases[b].slots[i] == d.leases[b].slots[i])
    && (forall b :: b in d.leases ==> e.leases[b] == d.leases[b].(slots := e.leases[b].slots))
    && (forall c :: c in d.attempts && c != a ==> c in e.attempts && e.attempts[c] == d.attempts[c])
  }

  lemma SettledFrees(db: Database, a: Uuid, status: WriteStatus)
    requires a in db.attempts
    ensures SlotsFreed(db, Settle(db, a, status), a)
    ensures a in Settle(db, a, status).attempts && Settle(db, a, status).attempts[a].status == status
  {
  }

  /** No task that has stopped being active is still reading, holds an intent or has
      valid evidence; nothing of an active task is touched. */
  ghost predicate OnlyActiveKnow(d: Database, e: Database) {
    && (forall r :: r in e.readAttempts && Inactive(e, e.readAttempts[r].task) ==> !e.readAttempts[r].status.ReadStarted?)
    && (forall i :: i in e.intents && Inactive(e, i.task) ==> !e.intents[i].status.Held?)
    && (forall k :: k in e.evidence && Inactive(e, e.evidence[k].task) ==> !e.evidence[k].valid)
    && (forall r :: r in d.readAttempts && !Inactive(d, d.readAttempts[r].task) ==>
          r in e.readAttempts && e.readAttempts[r] == d.readAttempts[r])
    && (forall i :: i in d.intents && !Inactive(d, i.task) ==> i in e.intents && e.intents[i] == d.intents[i])
    && (forall k :: k in d.evidence && !Inactive(d, d.evidence[k].task) ==>
          k in e.evidence && e.evidence[k] == d.evidence[k])
  }

  lemma ForgottenInactive(db: Database)
    ensures OnlyActiveKnow(db, ForgetInactive(db))
  {
  }

  /** Valid evidence of the task's own writing, new and for each state; the rest is kept. */
  ghost predicate OwnWriteKnown(d: Database, e: Database, t: TaskKey, os: ObservationSet) {
    && (forall i :: i in os ==>
          && EvidenceKey(d.nextUuid, i) in e.evidence
          && e.evidence[EvidenceKey(d.nextUuid, i)] == Evidence(t, FromOwnWrite, os[i], true))
    && (forall k :: k in d.evidence && k.evidence != d.nextUuid ==> k in e.evidence && e.evidence[k] == d.evidence[k])
    && (forall k :: k in e.evidence && k !in d.evidence ==> k.evidence == d.nextUuid && k.id in os)
  }

  lemma OwnWriteRecorded(db: Database, t: TaskKey, os: ObservationSet)
    ensures OwnWriteKnown(db, RecordOwnWrite(db, t, os), t, os)
  {
    hide FileUnder;
  }
}
