/** What the lease protocol guarantees its clients, over every run. */
module Theorems {
  import opened Basics
  import opened Resources
  import opened Tables
  import opened Sweeps
  import opened Invariants
  import opened SweepProofs
  import opened Safety
  import opened Evolution
  import opened Runs

  // ------------------------------------------------------ mutual exclusion

  /** The task holds the key in a lease or has it on offer. */
  ghost predicate Reserves(db: Database, t: TaskKey, key: ResourceKey) {
    || (exists b :: b in db.leases && db.leases[b].task == t && key in Keys(t.workspace, db.leases[b].resources))
    || (exists b :: b in db.requests && db.requests[b].state.Offered? && db.requests[b].task == t
                 && key in Keys(t.workspace, db.requests[b].resources))
  }

  lemma NoClash(w1: Name, r1: ResourceSet, w2: Name, r2: ResourceSet, k: ResourceKey, l: ResourceKey)
    requires !Clash(w1, r1, w2, r2) && k in Keys(w1, r1) && l in Keys(w2, r2)
    ensures !Overlap(k, l)
  {
    hide Overlap;
  }

  lemma ReservationsApart(db: Database, t: TaskKey, u: TaskKey, k: ResourceKey, l: ResourceKey)
    requires Inv(db) && t != u && Reserves(db, t, k) && Reserves(db, u, l)
    ensures !Overlap(k, l)
  {
    hide IdsUsed, Owned, Singles, QueueSound, WritesSound, EvidenceSound, Clash;
    OverlapSymmetric();
    hide Overlap;
    var r1, r2 := ReservingSet(db, t, k), ReservingSet(db, u, l);
    if Clash(t.workspace, r1, u.workspace, r2) {
      ClashSymmetric();
      assert false;
    }
    NoClash(t.workspace, r1, u.workspace, r2, k, l);
  }

  /** The resources of the lease or offer that reserves the key. */
  ghost function ReservingSet(db: Database, t: TaskKey, key: ResourceKey): (r: ResourceSet)
    requires Reserves(db, t, key)
    ensures key in Keys(t.workspace, r)
    ensures || (exists b :: b in db.leases && db.leases[b].task == t && db.leases[b].resources == r)
            || (exists b :: b in db.requests && db.requests[b].state.Offered? && db.requests[b].task == t
                         && db.requests[b].resources == r)
  {
    if exists b :: b in db.leases && db.leases[b].task == t && key in Keys(t.workspace, db.leases[b].resources) then
      var b :| b in db.leases && db.leases[b].task == t && key in Keys(t.workspace, db.leases[b].resources);
      db.leases[b].resources
    else
      var b :| b in db.requests && db.requests[b].state.Offered? && db.requests[b].task == t
               && key in Keys(t.workspace, db.requests[b].resources);
      db.requests[b].resources
  }

  /** After every run, what two tasks reserve never overlaps. */
  lemma MutualExclusion(run: seq<Event>, t: TaskKey, u: TaskKey, k: ResourceKey, l: ResourceKey)
    requires t != u && Reserves(StateAfter(run), t, k) && Reserves(StateAfter(run), u, l)
    ensures !Overlap(k, l)
  {
    hide *;
    RunSafe(run);
    ReservationsApart(StateAfter(run), t, u, k, l);
  }

  /** The task has a write in flight on the key. */
  ghost predicate Writing(db: Database, t: TaskKey, key: ResourceKey) {
    exists a, i :: WritesOn(db, a, i) && db.attempts[a].task == t && key == SlotKey(db, a, i)
  }

  /** The executing attempt `a` holds the slot of the resource `i`. */
  ghost predicate WritesOn(db: Database, a: Uuid, i: ResourceId) {
    && a in db.attempts && db.attempts[a].status.Executing? && db.attempts[a].batch in db.leases
    && i in db.leases[db.attempts[a].batch].slots && db.leases[db.attempts[a].batch].slots[i] == a
    && i in db.leases[db.attempts[a].batch].resources
  }

  /** The key under which the lease holds a busy resource. */
  ghost function SlotKey(db: Database, a: Uuid, i: ResourceId): ResourceKey
    requires WritesOn(db, a, i)
  {
    ResourceKey(db.attempts[a].task.workspace, i, db.leases[db.attempts[a].batch].resources[i])
  }

  lemma WritingReserves(db: Database, t: TaskKey, key: ResourceKey)
    requires Inv(db) && Writing(db, t, key)
    ensures Reserves(db, t, key)
  {
    hide IdsUsed, Owned, Singles, Apart, QueueSound, EvidenceSound;
  }

  /** After every run, two tasks never write to overlapping resources at once. */
  lemma WritesNeverCollide(run: seq<Event>, t: TaskKey, u: TaskKey, k: ResourceKey, l: ResourceKey)
    requires t != u && Writing(StateAfter(run), t, k) && Writing(StateAfter(run), u, l)
    ensures !Overlap(k, l)
  {
    hide *;
    RunSafe(run);
    WritingReserves(StateAfter(run), t, k);
    WritingReserves(StateAfter(run), u, l);
    MutualExclusion(run, t, u, k, l);
  }

  ghost predicate OneHolderPerResource(db: Database) {
    forall b, c, i |
      && b in db.leases && c in db.leases && i in db.leases[b].resources && i in db.leases[c].resources
      && db.leases[b].task.workspace == db.leases[c].task.workspace
      :: b == c
  }

  lemma HoldersUnique(db: Database, b: Uuid, c: Uuid, i: ResourceId)
    requires Inv(db) && b in db.leases && c in db.leases && i in db.leases[b].resources && i in db.leases[c].resources
    requires db.leases[b].task.workspace == db.leases[c].task.workspace
    ensures b == c
  {
    hide Inv;
    var t, u := db.leases[b].task, db.leases[c].task;
    if t == u {
      OneLeasePerTask(db, b, c);
    } else {
      ReservationsApart(db, t, u, Key(t.workspace, db.leases[b].resources, i), Key(u.workspace, db.leases[c].resources, i));
    }
  }

  lemma IndexesHold(db: Database)
    requires Inv(db)
    ensures OneHolderPerResource(db) && OneLeasePerAgent(db) && OnePendingPerTask(db) && SequencesDistinct(db)
  {
    hide IdsUsed, Owned, OneLeasePerAgent, OnePendingPerTask, OneOfferPerAgent, NoHoldAndWait, PendingUnused;
    hide Apart, SequencesDistinct, NoOvertaking, ChainsRise, WritesSound, EvidenceSound;
    forall b, c, i | && b in db.leases && c in db.leases && i in db.leases[b].resources && i in db.leases[c].resources
                     && db.leases[b].task.workspace == db.leases[c].task.workspace
      ensures b == c
    {
      HoldersUnique(db, b, c, i);
    }
  }

  /** The unique indexes of the schema never reject anything: what they forbid
      does not occur in any reachable state. */
  lemma UniqueIndexesRedundant(run: seq<Event>)
    ensures OneHolderPerResource(StateAfter(run)) && OneLeasePerAgent(StateAfter(run))
    ensures OnePendingPerTask(StateAfter(run)) && SequencesDistinct(StateAfter(run))
  {
    hide *;
    RunSafe(run);
    IndexesHold(StateAfter(run));
  }

  /** A task never holds a lease while it waits for one, and no agent holds two
      leases or two offers. */
  lemma NoHoldAndWaitEver(run: seq<Event>)
    ensures NoHoldAndWait(StateAfter(run)) && OneLeasePerAgent(StateAfter(run)) && OneOfferPerAgent(StateAfter(run))
  {
    hide StateAfter;
    RunSafe(run);
    hide IdsUsed, Owned, OneLeasePerAgent, OnePendingPerTask, OneOfferPerAgent, NoHoldAndWait, PendingUnused;
    hide Apart, QueueSound, WritesSound, EvidenceSound, Conserved;
  }

  // ------------------------------------------------------------- progress

  /** After every run, a waiting request is blocked by a lease or offer of its
      agent, by an overlapping lease or offer of another task, or by an overlapping
      request that has waited longer; so a workspace with a queue has a holder. */
  lemma NeverStuck(run: seq<Event>, b: Uuid)
    requires b in StateAfter(run).requests && StateAfter(run).requests[b].state.Queued?
    ensures Blocked(StateAfter(run), b)
    ensures WorkspaceHolds(StateAfter(run), StateAfter(run).requests[b].task.workspace)
  {
    hide StateAfter, Inv, Blocked;
    RunSafe(run);
    QueueHasHolder(StateAfter(run), b);
  }

  // ------------------------------------------------------ no lost updates

  /** Valid evidence of the task, from a read, for the key. */
  ghost predicate HasRead(db: Database, e: EvidenceKey, t: TaskKey) {
    e in db.evidence && db.evidence[e].valid && db.evidence[e].source.FromRead? && db.evidence[e].task == t
  }

  lemma ReadAvoidsWrites(db: Database, e: EvidenceKey, t: TaskKey, a: Uuid, i: ResourceId)
    requires Inv(db) && HasRead(db, e, t) && WritesOn(db, a, i) && db.attempts[a].task != t
    ensures !Overlap(db.evidence[e].observation.key, SlotKey(db, a, i))
  {
    hide IdsUsed, Owned, Singles, Apart, QueueSound, ResourcesRecorded, EvidenceRecorded, EvidenceCurrent;
    hide Overlap;
  }

  /** A read that is valid after a run and overlaps what another task was once
      writing was recorded only after that write had ended: at any earlier moment
      at which the write was executing, the read was not yet there. */
  lemma NoLostUpdate(run: seq<Event>, i: nat, a: Uuid, r: ResourceId, t: TaskKey, e: EvidenceKey)
    requires i <= |run|
    requires WritesOn(StateAfter(run[..i]), a, r) && StateAfter(run[..i]).attempts[a].task != t
    requires HasRead(StateAfter(run), e, t)
    requires Overlap(StateAfter(run).evidence[e].observation.key, SlotKey(StateAfter(run[..i]), a, r))
    ensures e !in StateAfter(run[..i]).evidence
  {
    hide StateAfter, Overlap, Inv;
    var d := StateAfter(run[..i]);
    RunLater(run, i);
    hide ResourcesEvolve, TasksEvolve, RequestsEvolve, AttemptsEvolve, LeasesEvolve, ReceiptsEvolve;
    if HasRead(d, e, t) {
      ReadAvoidsWrites(d, e, t, a, r);
    }
  }

  // ------------------------------------------------------ leases and writes

  /** While a write executes its lease is live and every resource the write started
      from is busy with that write; and a busy slot belongs to an executing write of
      that very lease. */
  lemma LeaseOutlivesWrite(run: seq<Event>)
    ensures WritesHoldSlots(StateAfter(run)) && SlotsHaveWrites(StateAfter(run))
  {
    hide StateAfter, Conserved;
    RunSafe(run);
    hide IdsUsed, Owned, Singles, Apart, QueueSound, EvidenceSound, WritesHoldSlots, SlotsHaveWrites, AttemptsOwned;
  }

  predicate Unresolved(db: Database, a: Uuid) {
    && a in db.attempts && (db.attempts[a].status.Executing? || db.attempts[a].status.Uncertain?)
    && db.attempts[a].batch in db.leases
  }

  lemma ExpireTasksSpares(db: Database, now: Instant, a: Uuid)
    requires WritesSound(db) && Unresolved(db, a)
    ensures Unresolved(ExpireTasks(db, now), a)
  {
  }

  lemma ExpireLeasesSpares(db: Database, now: Instant, a: Uuid)
    requires WritesSound(db) && Unresolved(db, a)
    ensures Unresolved(ExpireLeases(db, now), a)
  {
    if db.attempts[a].status.Executing? {
      assert db.attempts[a].start[0] in db.attempts[a].start;
    }
  }

  lemma PromoteSpares(db: Database, now: Instant, a: Uuid)
    requires Unresolved(db, a)
    ensures Unresolved(Promote(db, now), a)
  {
    PromoteFrame(db, db.queueSequence, now);
    hide PromoteThrough;
  }

  lemma ExpirySpares(db: Database, now: Instant, a: Uuid)
    requires Inv(db) && Unresolved(db, a)
    ensures Unresolved(ExpireTasksAndLeases(db, now), a)
  {
    hide Inv, ExpireTasks, ExpireLeases, Unresolved, WritesSound;
    Parts(db);
    ExpireTasksSpares(db, now, a);
    ExpireTasksKeeps(db, now);
    Parts(ExpireTasks(db, now));
    ExpireLeasesSpares(ExpireTasks(db, now), now, a);
  }

  /** Time alone never frees unresolved work: whatever instant the sweeps are given,
      a lease with an executing or uncertain write is still there afterwards. */
  lemma TimeAloneFreesNothing(run: seq<Event>, now: Instant, a: Uuid)
    requires Unresolved(StateAfter(run), a)
    ensures Unresolved(Sweep(StateAfter(run), now), a) && Unresolved(Maintain(StateAfter(run), now), a)
  {
    hide StateAfter, Inv, Conserved, Unresolved, ExpireTasksAndLeases, Promote, ExpireOffers, ForgetInactive, DrainOverdueWrites;
    var db := StateAfter(run);
    RunSafe(run);
    ExpirySpares(db, now, a);
    PromoteSpares(ExpireTasksAndLeases(db, now), now, a);
    ExpireOffersKeeps(db, now);
    OtherSweepsSpare(db, now, a);
    var d := ExpireOffers(db, now);
    ExpirySpares(d, now, a);
    OtherSweepsSpare(ExpireTasksAndLeases(d, now), now, a);
    OtherSweepsSpare(ForgetInactive(ExpireTasksAndLeases(d, now)), now, a);
    PromoteSpares(DrainOverdueWrites(ForgetInactive(ExpireTasksAndLeases(d, now)), now), now, a);
  }

  lemma OtherSweepsSpare(db: Database, now: Instant, a: Uuid)
    requires Unresolved(db, a)
    ensures Unresolved(ExpireOffers(db, now), a) && Unresolved(ForgetInactive(db), a) && Unresolved(DrainOverdueWrites(db, now), a)
  {
  }

  /** A batch that was once a lease and is no longer one never becomes one again. */
  lemma LeaseNeverReturns(run: seq<Event>, i: nat, j: nat, b: Uuid)
    requires i <= j <= |run|
    requires b in StateAfter(run[..i]).leases && b !in StateAfter(run[..j]).leases
    ensures b !in StateAfter(run).leases
  {
    hide StateAfter, Inv;
    assert run[..j][..i] == run[..i];
    RunLater(run[..j], i);
    RunLater(run, j);
    LeasesNotPending(StateAfter(run[..i]));
    hide ResourcesEvolve, EvidenceEvolves, TasksEvolve, AttemptsEvolve, ReceiptsEvolve;
  }

  // --------------------------------------------------------- terminal tasks

  /** The task holds nothing, waits for nothing and writes nothing. */
  ghost predicate Inert(db: Database, t: TaskKey) {
    !HasTaskLease(db, t) && !HasPending(db, t)
    && forall a :: a in db.attempts && db.attempts[a].status.Executing? ==> db.attempts[a].task != t
  }

  lemma TerminalInert(db: Database, t: TaskKey)
    requires Inv(db) && t in db.tasks && db.tasks[t].status.IsTerminal()
    ensures Inert(db, t)
  {
    hide IdsUsed, TasksSound, Singles, Apart, QueueSound, EvidenceSound;
  }

  /** A completed, failed or cancelled task stays so and is inert for ever. */
  lemma TerminalForEver(run: seq<Event>, i: nat, t: TaskKey)
    requires i <= |run| && t in StateAfter(run[..i]).tasks && StateAfter(run[..i]).tasks[t].status.IsTerminal()
    ensures t in StateAfter(run).tasks && StateAfter(run).tasks[t].status == StateAfter(run[..i]).tasks[t].status
    ensures Inert(StateAfter(run), t)
  {
    hide StateAfter, Inv, Conserved, Inert;
    RunLater(run, i);
    RunSafe(run);
    hide ResourcesEvolve, EvidenceEvolves, RequestsEvolve, AttemptsEvolve, LeasesEvolve, ReceiptsEvolve;
    TerminalInert(StateAfter(run), t);
  }

  /** Requests, attempts and leases only move along their transition tables. */
  lemma StatesOnlyAdvance(run: seq<Event>, i: nat)
    requires i <= |run|
    ensures RequestsEvolve(StateAfter(run[..i]), StateAfter(run)) && AttemptsEvolve(StateAfter(run[..i]), StateAfter(run))
    ensures LeasesEvolve(StateAfter(run[..i]), StateAfter(run))
  {
    hide StateAfter, Inv;
    RunLater(run, i);
    hide ResourcesEvolve, EvidenceEvolves, TasksEvolve, RequestsEvolve, AttemptsEvolve, LeasesEvolve, ReceiptsEvolve;
  }
}
