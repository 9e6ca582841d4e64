/** What a task that wants to write is answered, and when: a permit, a place in the queue,
    a call to read again, or a refusal (crates/stateful-store/src/store_v2.rs). */
module PrepareAnswers {
  import opened Basics
  import opened Resources
  import opened Operations
  import opened OperationMeaning
  import opened Tables
  import opened Sweeps
  import opened Commands
  import opened Invariants
  import opened Safety
  import opened Reports

  // ------------------------------------------------------------ vocabulary

  ghost predicate HoldsLease(db: Database, t: TaskKey, b: Uuid) { b in db.leases && db.leases[b].task == t }

  ghost predicate InQueue(db: Database, t: TaskKey, b: Uuid) {
    b in db.requests && db.requests[b].task == t && (db.requests[b].state == Queued || db.requests[b].state == Offered)
  }

  /** The command is one the client may send: its own active task, deadlines within the
      task's settings, and observations the operation may start from. */
  ghost predicate Proper(db: Database, ctx: Context, cmd: Command)
    requires cmd.WritePrepare?
  {
    var t := TaskKey(ctx.workspace, ctx.task);
    && t in db.tasks && db.tasks[t].agent == ctx.agent && db.tasks[t].status == Active
    && ctx.observedAt < cmd.requestExpiresAt <= ctx.observedAt + db.tasks[t].settings.offerTtl
    && ctx.observedAt < cmd.leaseExpiresAt <= ctx.observedAt + db.tasks[t].settings.leaseExpiry
    && ctx.observedAt < cmd.attemptDeadline && cmd.invocation != BLANK
    && Tidy(ctx.workspace, cmd.current) && cmd.current != [] && MayStart(cmd.operation, cmd.current)
  }

  /** What the task would have to hold to write: what it holds or waits for already, under
      the paths it has it under, and what it asks for. */
  ghost predicate Wants(db: Database, t: TaskKey, os: seq<Observation>, rs: ResourceSet) {
    && (forall b, i :: HoldsLease(db, t, b) && i in db.leases[b].resources ==> i in rs && rs[i] == db.leases[b].resources[i])
    && (forall b, i :: InQueue(db, t, b) && i in db.requests[b].resources ==> i in rs && rs[i] == db.requests[b].resources[i])
    && (forall o :: o in os ==> o.key.id in rs && (rs[o.key.id] == o.key.path || HasAlready(db, t, o.key.id)))
    && (forall i :: i in rs ==> HasAlready(db, t, i) || exists o :: o in os && o.key.id == i)
  }

  ghost predicate HasAlready(db: Database, t: TaskKey, i: ResourceId) {
    || (exists b :: HoldsLease(db, t, b) && i in db.leases[b].resources)
    || (exists b :: InQueue(db, t, b) && i in db.requests[b].resources)
  }

  /** Somebody is in the way: the task waits already, its agent writes for another task, or
      another task holds or waits for something that overlaps. */
  ghost predicate MustWait(db: Database, ctx: Context, rs: ResourceSet) {
    var t := TaskKey(ctx.workspace, ctx.task);
    || (exists b :: InQueue(db, t, b))
    || (exists b :: b in db.leases && db.leases[b].task.workspace == ctx.workspace && db.leases[b].agent == ctx.agent
                 && db.leases[b].task != t)
    || (exists b, i, j :: b in db.leases && db.leases[b].task != t && i in rs && j in db.leases[b].resources
                       && Overlap(ResourceKey(ctx.workspace, i, rs[i]),
                                  ResourceKey(db.leases[b].task.workspace, j, db.leases[b].resources[j])))
    || (exists b, i, j :: b in db.requests && db.requests[b].task != t
                       && (db.requests[b].state == Queued || db.requests[b].state == Offered)
                       && i in rs && j in db.requests[b].resources
                       && Overlap(ResourceKey(ctx.workspace, i, rs[i]),
                                  ResourceKey(db.requests[b].task.workspace, j, db.requests[b].resources[j])))
  }

  /** The task has at some time recorded the resource in this state. */
  ghost predicate HasSeen(db: Database, t: TaskKey, o: Observation) {
    exists e :: e in db.evidence && db.evidence[e].task == t && e.id == o.key.id
             && db.evidence[e].observation.key == o.key && db.evidence[e].observation.observed == o.observed
  }

  ghost predicate AllSeen(db: Database, t: TaskKey, os: seq<Observation>) { forall o :: o in os ==> HasSeen(db, t, o) }

  /** The state is the one on record, and the task has valid evidence of it as it is on record. */
  ghost predicate KnowsNow(db: Database, t: TaskKey, o: Observation) {
    var r := ResourceRef(t.workspace, o.key.id);
    && r in db.resources && db.resources[r].state == o.observed
    && exists e :: e in db.evidence && db.evidence[e].task == t && db.evidence[e].valid && e.id == o.key.id
                && db.evidence[e].observation == Observation(o.key, o.observed, db.resources[r].generation)
  }

  ghost predicate AllCurrent(db: Database, t: TaskKey, os: seq<Observation>) { forall o :: o in os ==> KnowsNow(db, t, o) }

  ghost predicate AllRecorded(db: Database, workspace: Name, os: seq<Observation>) {
    forall o :: o in os ==> ResourceRef(workspace, o.key.id) in db.resources
  }

  /** A write of the task is under way. */
  ghost predicate WritesAlready(db: Database, t: TaskKey) { exists b, i :: HoldsLease(db, t, b) && i in db.leases[b].slots }

  /** The lease the task has, if any, is live and has room for the write, and the invocation is new. */
  ghost predicate MayBegin(db: Database, ctx: Context, cmd: Command)
    requires cmd.WritePrepare?
  {
    var t := TaskKey(ctx.workspace, ctx.task);
    && (forall b :: HoldsLease(db, t, b) ==>
          && db.leases[b].state == LeaseActive && ctx.observedAt < db.leases[b].expiresAt
          && (forall o :: o in cmd.current ==> o.key.id !in db.leases[b].slots)
          && (db.leases[b].slots == map[] || forall o :: o in cmd.current ==> o.key.id in db.leases[b].resources))
    && (forall a :: a in db.attempts && db.attempts[a].task == t ==> db.attempts[a].invocation != cmd.invocation)
  }

  // ------------------------------------------------------- the queries meant

  lemma LeaseMeant(db: Database, t: TaskKey)
    ensures HasTaskLease(db, t) <==> exists b :: HoldsLease(db, t, b)
    ensures Inv(db) && HasTaskLease(db, t) ==> forall b :: HoldsLease(db, t, b) <==> b == TaskLease(db, t)
  {
    hide Inv;
    if HasTaskLease(db, t) {
      assert HoldsLease(db, t, TaskLease(db, t));
      if Inv(db) {
        forall b | HoldsLease(db, t, b) ensures b == TaskLease(db, t) { OneLeasePerTask(db, b, TaskLease(db, t)); }
      }
    }
    if b :| HoldsLease(db, t, b) { assert b in db.leases; }
  }

  lemma PendingMeant(db: Database, t: TaskKey)
    ensures HasPending(db, t) <==> exists b :: InQueue(db, t, b)
    ensures Inv(db) && HasPending(db, t) ==> forall b :: InQueue(db, t, b) <==> b == PendingRequest(db, t)
  {
    hide Inv;
    if HasPending(db, t) {
      assert InQueue(db, t, PendingRequest(db, t));
      if Inv(db) {
        forall b | InQueue(db, t, b) ensures b == PendingRequest(db, t) { OnePending(db, t, b); }
      }
    }
    if b :| InQueue(db, t, b) { assert db.requests[b].Pending(); }
  }

  lemma UnionLease(db: Database, t: TaskKey, requested: ResourceSet)
    requires Inv(db) && HasTaskLease(db, t)
    ensures Union(db, t, requested) == requested + db.leases[TaskLease(db, t)].resources
  {
    hide Inv;
    HoldingWaitsForNothing(db, t);
  }

  lemma UnionPending(db: Database, t: TaskKey, requested: ResourceSet)
    requires !HasTaskLease(db, t) && HasPending(db, t)
    ensures Union(db, t, requested) == requested + db.requests[PendingRequest(db, t)].resources
  {
    hide HasTaskLease;
  }

  lemma UnionAlone(db: Database, t: TaskKey, requested: ResourceSet)
    requires !HasTaskLease(db, t) && !HasPending(db, t)
    ensures Union(db, t, requested) == requested
  {
    hide HasTaskLease, HasPending;
    assert requested + map[] == requested;
  }

  /** The set the code puts together is the one the task wants. */
  lemma UnionMeant(db: Database, t: TaskKey, os: seq<Observation>, reported: ObservationSet, rs: ResourceSet)
    requires Inv(db) && Holds(t.workspace, os, reported) && Wants(db, t, os, rs)
    ensures Union(db, t, KeySet(reported)) == rs
  {
    hide Inv, Union, HasTaskLease, HasPending;
    LeaseMeant(db, t);
    PendingMeant(db, t);
    var requested := KeySet(reported);
    if HasTaskLease(db, t) {
      HoldingWaitsForNothing(db, t);
      UnionLease(db, t, requested);
      AlreadyIs(db, t, db.leases[TaskLease(db, t)].resources);
      WantedIs(db, t, os, reported, rs, db.leases[TaskLease(db, t)].resources);
    } else if HasPending(db, t) {
      UnionPending(db, t, requested);
      AlreadyIs(db, t, db.requests[PendingRequest(db, t)].resources);
      WantedIs(db, t, os, reported, rs, db.requests[PendingRequest(db, t)].resources);
    } else {
      UnionAlone(db, t, requested);
      AlreadyIs(db, t, map[]);
      WantedIs(db, t, os, reported, rs, map[]);
      assert requested + map[] == requested;
    }
  }

  /** What the task has already, as one set. */
  ghost predicate Has(db: Database, t: TaskKey, had: ResourceSet) {
    && (forall i :: i in had <==> HasAlready(db, t, i))
    && (forall b, i :: HoldsLease(db, t, b) && i in db.leases[b].resources ==> i in had && had[i] == db.leases[b].resources[i])
    && (forall b, i :: InQueue(db, t, b) && i in db.requests[b].resources ==> i in had && had[i] == db.requests[b].resources[i])
  }

  lemma AlreadyIs(db: Database, t: TaskKey, had: ResourceSet)
    requires Inv(db)
    requires had ==
             if HasTaskLease(db, t) then db.leases[TaskLease(db, t)].resources
             else if HasPending(db, t) then db.requests[PendingRequest(db, t)].resources
             else map[]
    ensures Has(db, t, had)
  {
    hide Inv, HasTaskLease, HasPending;
    LeaseMeant(db, t);
    PendingMeant(db, t);
    if HasTaskLease(db, t) { HoldingWaitsForNothing(db, t); }
  }

  lemma WantedIs(db: Database, t: TaskKey, os: seq<Observation>, reported: ObservationSet, rs: ResourceSet, had: ResourceSet)
    requires Holds(t.workspace, os, reported) && Wants(db, t, os, rs) && Has(db, t, had)
    ensures KeySet(reported) + had == rs
  {
    hide HoldsLease, InQueue;
    forall i ensures i in KeySet(reported) + had <==> i in rs {
      if i in reported { assert reported[i] in os; }
    }
    forall i | i in rs ensures (KeySet(reported) + had)[i] == rs[i] {
      if i in had {
        WantedHad(db, t, os, rs, had, i);
      } else {
        assert reported[i] in os;
      }
    }
  }

  lemma WantedHad(db: Database, t: TaskKey, os: seq<Observation>, rs: ResourceSet, had: ResourceSet, i: ResourceId)
    requires Wants(db, t, os, rs) && Has(db, t, had) && i in had
    ensures i in rs && rs[i] == had[i]
  {
    hide HoldsLease, InQueue;
    assert HasAlready(db, t, i);
  }

  /** There is exactly one such set. */
  lemma WantsOne(db: Database, t: TaskKey, os: seq<Observation>) returns (rs: ResourceSet)
    requires Inv(db) && Tidy(t.workspace, os)
    ensures Wants(db, t, os, rs)
    ensures forall other :: Wants(db, t, os, other) ==> other == rs
  {
    hide Inv, Wants, Canonical, Holds, Tidy;
    CanonicalExact(t.workspace, os);
    var reported := Canonical(t.workspace, os).value;
    var had := AllItHas(db, t);
    rs := KeySet(reported) + had;
    MergedWanted(db, t, os, reported, had);
    forall other | Wants(db, t, os, other) ensures other == rs { WantedIs(db, t, os, reported, other, had); }
  }

  lemma AllItHas(db: Database, t: TaskKey) returns (had: ResourceSet)
    requires Inv(db)
    ensures Has(db, t, had)
  {
    hide Inv, Has, HasTaskLease, HasPending;
    had := if HasTaskLease(db, t) then db.leases[TaskLease(db, t)].resources
           else if HasPending(db, t) then db.requests[PendingRequest(db, t)].resources
           else map[];
    AlreadyIs(db, t, had);
  }

  lemma MergedWanted(db: Database, t: TaskKey, os: seq<Observation>, reported: ObservationSet, had: ResourceSet)
    requires Holds(t.workspace, os, reported) && Has(db, t, had)
    ensures Wants(db, t, os, KeySet(reported) + had)
  {
    hide HoldsLease, InQueue, HasAlready;
    var rs := KeySet(reported) + had;
    forall i | i in rs ensures HasAlready(db, t, i) || exists o :: o in os && o.key.id == i {
      if i !in had { assert reported[i] in os; }
    }
  }

  lemma ClashMeant(w1: Name, r1: ResourceSet, w2: Name, r2: ResourceSet) returns (i: ResourceId, j: ResourceId)
    requires Clash(w1, r1, w2, r2)
    ensures i in r1 && j in r2 && Overlap(ResourceKey(w1, i, r1[i]), ResourceKey(w2, j, r2[j]))
  {
    i, j :| i in r1 && j in r2 && Overlap(ResourceKey(w1, i, r1[i]), ResourceKey(w2, j, r2[j]));
  }

  lemma LeaseConflictMeant(db: Database, t: TaskKey, rs: ResourceSet)
    ensures LeaseConflict(db, t, rs) <==>
              exists b, i, j :: b in db.leases && db.leases[b].task != t && i in rs && j in db.leases[b].resources
                             && Overlap(ResourceKey(t.workspace, i, rs[i]),
                                        ResourceKey(db.leases[b].task.workspace, j, db.leases[b].resources[j]))
  {
    hide Overlap;
    if LeaseConflict(db, t, rs) {
      var b :| && b in db.leases && db.leases[b].task != t
               && Clash(t.workspace, rs, db.leases[b].task.workspace, db.leases[b].resources);
      var i, j := ClashMeant(t.workspace, rs, db.leases[b].task.workspace, db.leases[b].resources);
    }
  }

  lemma RequestConflictMeant(db: Database, t: TaskKey, rs: ResourceSet)
    ensures OfferConflict(db, t, rs) || QueueConflict(db, t, rs) <==>
              exists b, i, j :: b in db.requests && db.requests[b].task != t
                             && (db.requests[b].state == Queued || db.requests[b].state == Offered)
                             && i in rs && j in db.requests[b].resources
                             && Overlap(ResourceKey(t.workspace, i, rs[i]),
                                        ResourceKey(db.requests[b].task.workspace, j, db.requests[b].resources[j]))
  {
    hide Overlap;
    if OfferConflict(db, t, rs) {
      var b :| && b in db.requests && db.requests[b].state.Offered? && db.requests[b].task != t
               && Clash(t.workspace, rs, db.requests[b].task.workspace, db.requests[b].resources);
      var i, j := ClashMeant(t.workspace, rs, db.requests[b].task.workspace, db.requests[b].resources);
    } else if QueueConflict(db, t, rs) {
      var b :| && b in db.requests && db.requests[b].state.Queued? && db.requests[b].task != t
               && Clash(t.workspace, rs, db.requests[b].task.workspace, db.requests[b].resources);
      var i, j := ClashMeant(t.workspace, rs, db.requests[b].task.workspace, db.requests[b].resources);
    }
  }

  lemma MustWaitMeant(db: Database, ctx: Context, rs: ResourceSet)
    ensures Contended(db, ctx, rs) <==> MustWait(db, ctx, rs)
  {
    hide Overlap, LeaseConflict, OfferConflict, QueueConflict, HasPending;
    var t := ctx.Task();
    PendingMeant(db, t);
    LeaseConflictMeant(db, t, rs);
    RequestConflictMeant(db, t, rs);
  }

  lemma SeenMeant(db: Database, t: TaskKey, os: seq<Observation>, reported: ObservationSet)
    requires Holds(t.workspace, os, reported)
    ensures HasHistoricalEvidence(db, t, reported) <==> AllSeen(db, t, os)
  {
    hide HasHistory, HasSeen;
    forall o ensures HasHistory(db, t, o) <==> HasSeen(db, t, o) { HistoryMeant(db, t, o); }
    if AllSeen(db, t, os) {
      forall i | i in reported ensures HasHistory(db, t, reported[i]) { assert reported[i] in os; }
    }
    if HasHistoricalEvidence(db, t, reported) {
      forall o | o in os ensures HasSeen(db, t, o) { assert reported[o.key.id] == o; }
    }
  }

  lemma HistoryMeant(db: Database, t: TaskKey, o: Observation)
    ensures HasHistory(db, t, o) <==> HasSeen(db, t, o)
  {
  }

  /** What the checks of a direct write see of the projection. */
  lemma RecordedMeant(db: Database, workspace: Name, os: seq<Observation>, reported: ObservationSet)
    requires Holds(workspace, os, reported)
    ensures CurrentObservations(db, workspace, KeySet(reported)).Ok? <==> AllRecorded(db, workspace, os)
    ensures CurrentObservations(db, workspace, KeySet(reported)).Err? ==>
              CurrentObservations(db, workspace, KeySet(reported)).error == NotFound
    ensures CurrentObservations(db, workspace, KeySet(reported)).Ok? ==>
              forall o :: o in os ==>
                var current := CurrentObservations(db, workspace, KeySet(reported)).value;
                && o.key.id in current && ResourceRef(workspace, o.key.id) in db.resources
                && current[o.key.id] == Observation(o.key, db.resources[ResourceRef(workspace, o.key.id)].state,
                                                    db.resources[ResourceRef(workspace, o.key.id)].generation)
  {
    if AllRecorded(db, workspace, os) {
      forall i | i in reported ensures ResourceRef(workspace, i) in db.resources { assert reported[i] in os; }
    }
    forall o | o in os ensures KeySet(reported)[o.key.id] == o.key.path && o.key.workspace == workspace {
      assert reported[o.key.id] == o;
    }
  }

  lemma CurrentMeant(db: Database, t: TaskKey, os: seq<Observation>, reported: ObservationSet, current: ObservationSet)
    requires Holds(t.workspace, os, reported) && CurrentObservations(db, t.workspace, KeySet(reported)) == Ok(current)
    ensures SameStates(current, reported) && HasCurrentEvidence(db, t, current, None) <==> AllCurrent(db, t, os)
  {
    hide CurrentObservations, HasEvidence, KnowsNow, AllRecorded;
    RecordedMeant(db, t.workspace, os, reported);
    forall o | o in os
      ensures SameState(current[o.key.id], o) && HasEvidence(db, t, current[o.key.id], None) <==> KnowsNow(db, t, o)
    {
      KnowsMeant(db, t, o);
    }
    if AllCurrent(db, t, os) {
      forall i | i in current ensures SameState(current[i], reported[i]) && HasEvidence(db, t, current[i], None) {
        assert reported[i] in os;
      }
    }
    if SameStates(current, reported) && HasCurrentEvidence(db, t, current, None) {
      forall o | o in os ensures KnowsNow(db, t, o) { assert SameState(current[o.key.id], reported[o.key.id]); }
    }
  }

  lemma KnowsMeant(db: Database, t: TaskKey, o: Observation)
    requires ResourceRef(t.workspace, o.key.id) in db.resources
    ensures var row := db.resources[ResourceRef(t.workspace, o.key.id)];
            var current := Observation(o.key, row.state, row.generation);
            SameState(current, o) && HasEvidence(db, t, current, None) <==> KnowsNow(db, t, o)
  {
  }

  // --------------------------------------------------------------- answers

  /** The batches a client is pointed to: its lease or its place in the queue. */
  ghost predicate ListsOwn(db: Database, t: TaskKey, batches: seq<Uuid>) {
    |batches| <= 1 && forall b :: b in batches <==> HoldsLease(db, t, b) || InQueue(db, t, b)
  }

  lemma WritesMeant(db: Database, t: TaskKey)
    requires Inv(db)
    ensures HasTaskLease(db, t) && db.leases[TaskLease(db, t)].slots != map[] <==> WritesAlready(db, t)
  {
    hide Inv, HasTaskLease;
    LeaseMeant(db, t);
    if HasTaskLease(db, t) && db.leases[TaskLease(db, t)].slots != map[] {
      var i :| i in db.leases[TaskLease(db, t)].slots;
      assert HoldsLease(db, t, TaskLease(db, t));
    }
  }

  lemma OwnListed(db: Database, t: TaskKey)
    requires Inv(db)
    ensures ListsOwn(db, t, (if HasTaskLease(db, t) then [TaskLease(db, t)] else [])
                            + (if HasPending(db, t) then [PendingRequest(db, t)] else []))
  {
    hide Inv, HasTaskLease, HasPending, HoldsLease, InQueue;
    LeaseMeant(db, t);
    PendingMeant(db, t);
    if HasTaskLease(db, t) { HoldingWaitsForNothing(db, t); }
  }

  lemma JoinQueueAnswer(db: Database, ctx: Context, cmd: Command, reported: ObservationSet, rs: ResourceSet)
    requires Inv(db) && cmd.WritePrepare? && Holds(ctx.workspace, cmd.current, reported)
    ensures var r, t := JoinQueue(db, ctx, cmd, reported, rs), ctx.Task();
            && r.Accepted?
            && (if !AllSeen(db, t, cmd.current) then
                  r.db == db && r.response.RereadRequired? && ListsOwn(db, t, r.response.batches)
                else if WritesAlready(db, t) then r == Accepted(db, Denied)
                else r.response.QueuedAs?)
  {
    hide Inv, HasHistoricalEvidence, HasTaskLease, HasPending, Holds, Promote, Enqueue, ReleaseTaskLeases, AllSeen;
    hide WritesAlready, ListsOwn;
    SeenMeant(db, ctx.Task(), cmd.current, reported);
    WritesMeant(db, ctx.Task());
    OwnListed(db, ctx.Task());
  }

  /** The checks on the task's own lease. */
  lemma RoomMeant(db: Database, ctx: Context, cmd: Command, reported: ObservationSet)
    requires Inv(db) && cmd.WritePrepare? && Holds(ctx.workspace, cmd.current, reported) && HasTaskLease(db, ctx.Task())
    requires AllRecorded(db, ctx.workspace, cmd.current)
    ensures var union := KeySet(reported) + db.leases[TaskLease(db, ctx.Task())].resources;
            && (MayBegin(db, ctx, cmd) <==>
                  && GrantError(db, ctx, union).None?
                  && !SlotTaken(db.leases[TaskLease(db, ctx.Task())], KeySet(reported))
                  && !InvocationUsed(db.attempts, ctx.Task(), cmd.invocation))
  {
    hide Inv, HasTaskLease, InvocationUsed;
    LeaseMeant(db, ctx.Task());
    var b := TaskLease(db, ctx.Task());
    var l := db.leases[b];
    assert HoldsLease(db, ctx.Task(), b);
    var union := KeySet(reported) + l.resources;
    assert SlotTaken(l, KeySet(reported)) <==> exists o :: o in cmd.current && o.key.id in l.slots by {
      if i :| i in KeySet(reported) && i in l.slots { assert reported[i] in cmd.current; }
    }
    assert union.Keys == l.resources.Keys <==> forall o :: o in cmd.current ==> o.key.id in l.resources by {
      GrowsMeant(ctx.workspace, cmd.current, reported, l.resources);
    }
    forall i | i in union && i !in l.resources ensures ResourceRef(ctx.workspace, i) in db.resources {
      assert reported[i] in cmd.current;
    }
    InvocationMeant(db.attempts, ctx.Task(), cmd.invocation);
  }

  lemma GrowsMeant(workspace: Name, os: seq<Observation>, reported: ObservationSet, held: ResourceSet)
    requires Holds(workspace, os, reported)
    ensures (KeySet(reported) + held).Keys == held.Keys <==> forall o :: o in os ==> o.key.id in held
  {
    if forall o :: o in os ==> o.key.id in held {
      forall i | i in reported ensures i in held { assert reported[i] in os; }
    }
    forall o | o in os ensures o.key.id in (KeySet(reported) + held).Keys { assert o.key.id in reported; }
  }

  lemma InvocationMeant(attempts: map<Uuid, WriteAttempt>, t: TaskKey, invocation: Name)
    ensures !InvocationUsed(attempts, t, invocation) <==>
              forall a :: a in attempts && attempts[a].task == t ==> attempts[a].invocation != invocation
  {
  }

  lemma FreshRoomMeant(db: Database, ctx: Context, cmd: Command, reported: ObservationSet)
    requires cmd.WritePrepare? && Holds(ctx.workspace, cmd.current, reported) && !HasTaskLease(db, ctx.Task())
    requires AllRecorded(db, ctx.workspace, cmd.current)
    ensures GrantError(db, ctx, KeySet(reported)).None?
    ensures MayBegin(db, ctx, cmd) <==> !InvocationUsed(db.attempts, ctx.Task(), cmd.invocation)
  {
    hide HasTaskLease;
    LeaseMeant(db, ctx.Task());
    InvocationMeant(db.attempts, ctx.Task(), cmd.invocation);
    forall i | i in reported ensures ResourceRef(ctx.workspace, i) in db.resources { assert reported[i] in cmd.current; }
  }

  lemma NewLeaseSlots(db: Database, ctx: Context, union: ResourceSet, expiresAt: Instant)
    requires !HasTaskLease(db, ctx.Task())
    ensures db.nextUuid in Grant(db, ctx, union, expiresAt).leases
    ensures Grant(db, ctx, union, expiresAt).leases[db.nextUuid].slots == map[]
  {
    hide HasTaskLease;
  }

  lemma OldLeaseSlots(db: Database, ctx: Context, union: ResourceSet, expiresAt: Instant)
    requires HasTaskLease(db, ctx.Task())
    ensures var b := TaskLease(db, ctx.Task());
            && b in Grant(db, ctx, union, expiresAt).leases
            && Grant(db, ctx, union, expiresAt).leases[b].slots == db.leases[b].slots
  {
    hide HasTaskLease;
  }

  lemma GrantedLease(db: Database, ctx: Context, union: ResourceSet, expiresAt: Instant)
    ensures var batch, e := GrantBatch(db, ctx.Task()), Grant(db, ctx, union, expiresAt);
            && batch in e.leases
            && e.leases[batch].slots == if HasTaskLease(db, ctx.Task()) then db.leases[batch].slots else map[]
  {
    hide HasTaskLease, Grant;
    if HasTaskLease(db, ctx.Task()) {
      OldLeaseSlots(db, ctx, union, expiresAt);
    } else {
      NewLeaseSlots(db, ctx, union, expiresAt);
    }
  }

  lemma GrantedAnswer(db: Database, ctx: Context, cmd: Command, requested: ResourceSet, union: ResourceSet, start: seq<Observation>)
    requires cmd.WritePrepare?
    ensures var r, t := GrantedWrite(db, ctx, cmd, requested, union, start), ctx.Task();
            && (r.Accepted? <==>
                  && GrantError(db, ctx, union).None? && !InvocationUsed(db.attempts, t, cmd.invocation)
                  && (HasTaskLease(db, t) ==> !SlotTaken(db.leases[TaskLease(db, t)], requested)))
            && (r.Accepted? ==> r.response.Ready?)
  {
    hide GrantError, HasTaskLease, InvocationUsed, Grant, BeginWrite, Keys;
    GrantedLease(db, ctx, union, cmd.leaseExpiresAt);
    NoSlots(Grant(db, ctx, union, cmd.leaseExpiresAt).leases[GrantBatch(db, ctx.Task())], requested);
  }

  lemma NoSlots(l: Lease, requested: ResourceSet)
    ensures l.slots == map[] ==> !SlotTaken(l, requested)
  {
  }

  lemma DirectWriteAnswer(db: Database, ctx: Context, cmd: Command, reported: ObservationSet)
    requires Inv(db) && cmd.WritePrepare? && Holds(ctx.workspace, cmd.current, reported)
    requires Canonical(ctx.workspace, cmd.current) == Ok(reported) && !HasPending(db, ctx.Task())
    ensures var t := ctx.Task();
            var r := DirectWrite(db, ctx, cmd, reported, Union(db, t, KeySet(reported)));
            if !AllRecorded(db, ctx.workspace, cmd.current) then r == Rejected(NotFound)
            else if !AllCurrent(db, t, cmd.current) then
              r.Accepted? && r.db == db && r.response.RereadRequired? && ListsOwn(db, t, r.response.batches)
            else if MayBegin(db, ctx, cmd) then r.Accepted? && r.response.Ready?
            else r.Rejected?
  {
    hide Inv, Union, Canonical, CurrentObservations, SameStates, HasCurrentEvidence, GrantedWrite, HasTaskLease, HasPending;
    hide Holds, KeySet, AllRecorded, AllCurrent, MayBegin, ListsOwn, GrantError, SlotTaken, InvocationUsed, StartOf;
    var t := ctx.Task();
    var requested := KeySet(reported);
    RecordedMeant(db, ctx.workspace, cmd.current, reported);
    var current := CurrentObservations(db, ctx.workspace, requested);
    if current.Ok? {
      CurrentMeant(db, t, cmd.current, reported, current.value);
      OwnListed(db, t);
      var own := if HasTaskLease(db, t) then [TaskLease(db, t)] else [];
      assert own + [] == own;
      CanonicalKeys(ctx.workspace, cmd.current);
      GrantedAnswer(db, ctx, cmd, requested, Union(db, t, requested), StartOf(cmd.current, current.value));
      if HasTaskLease(db, t) {
        UnionLease(db, t, requested);
        RoomMeant(db, ctx, cmd, reported);
      } else {
        UnionAlone(db, t, requested);
        FreshRoomMeant(db, ctx, cmd, reported);
      }
    }
  }

  /** The answer to a task that wants to write. A proper request with somebody in the way is
      queued if the task has seen everything it reports, told to read again if it has not,
      and denied while a write of its own is under way. With nobody in the way it is given
      a permit if its evidence is current and its lease has room, and told to read again if
      its evidence is not. An answer other than a permit or a place in the queue changes
      nothing, and being told to read again names the task's own lease or request. */
  lemma PrepareAnswer(db: Database, ctx: Context, cmd: Command, rs: ResourceSet)
    requires Inv(db) && cmd.WritePrepare? && Wants(db, ctx.Task(), cmd.current, rs)
    ensures var t := ctx.Task();
            match PrepareWrite(db, ctx, cmd)
            case Accepted(e, response) =>
              && Proper(db, ctx, cmd)
              && (match response
                  case Ready(_, _, _) => !MustWait(db, ctx, rs) && AllCurrent(db, t, cmd.current) && MayBegin(db, ctx, cmd)
                  case QueuedAs(_) => MustWait(db, ctx, rs) && AllSeen(db, t, cmd.current) && !WritesAlready(db, t)
                  case RereadRequired(batches) =>
                    && (if MustWait(db, ctx, rs) then !AllSeen(db, t, cmd.current)
                        else AllRecorded(db, ctx.workspace, cmd.current) && !AllCurrent(db, t, cmd.current))
                    && ListsOwn(db, t, batches) && e == db
                  case Denied =>
                    MustWait(db, ctx, rs) && AllSeen(db, t, cmd.current) && WritesAlready(db, t) && e == db
                  case _ => false)
            case Rejected(_) =>
              || !Proper(db, ctx, cmd)
              || (!MustWait(db, ctx, rs) && !AllRecorded(db, ctx.workspace, cmd.current))
              || (!MustWait(db, ctx, rs) && AllCurrent(db, t, cmd.current) && !MayBegin(db, ctx, cmd))
  {
    hide Inv, Union, Contended, JoinQueue, DirectWrite, Canonical, ValidateOperationStart, MayStart, Tidy, Holds, Wants;
    hide MustWait, AllSeen, AllCurrent, AllRecorded, MayBegin, WritesAlready, ListsOwn, HasPending, KeySet;
    CanonicalExact(ctx.workspace, cmd.current);
    StartExact(cmd.operation, cmd.current);
    var reported := Canonical(ctx.workspace, cmd.current);
    if reported.Ok? && cmd.current != [] {
      NotEmpty(ctx.workspace, cmd.current, reported.value);
      UnionMeant(db, ctx.Task(), cmd.current, reported.value, rs);
      MustWaitMeant(db, ctx, rs);
      if Contended(db, ctx, rs) {
        JoinQueueAnswer(db, ctx, cmd, reported.value, rs);
      } else {
        NotWaiting(db, ctx, rs);
        DirectWriteAnswer(db, ctx, cmd, reported.value);
      }
    }
  }

  lemma NotEmpty(workspace: Name, os: seq<Observation>, reported: ObservationSet)
    requires Holds(workspace, os, reported)
    ensures reported == map[] <==> os == []
  {
    if os != [] { assert os[0] in os; }
    if reported != map[] {
      var i :| i in reported;
      assert reported[i] in os;
    }
  }

  lemma NotWaiting(db: Database, ctx: Context, rs: ResourceSet)
    requires !Contended(db, ctx, rs)
    ensures !HasPending(db, ctx.Task())
  {
  }
}
