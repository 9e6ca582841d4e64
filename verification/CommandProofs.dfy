/** Settling attempts, closing tasks and letting leases go keep the invariant; steps that
    free nothing leave every waiting request its reason to wait. */
module CommandProofs {
  import opened Basics
  import opened Resources
  import opened Tables
  import opened Sweeps
  import opened Commands
  import opened Invariants
  import opened Reductions

  // ------------------------------------------------- settling an attempt

  /** The executing attempt `a` reaches a final status and gives up its slots;
      some leases may start draining, and the attempt's must if it is uncertain. */
  ghost predicate Settles(d: Database, e: Database, a: Uuid) {
    && a in d.attempts && d.attempts[a].status.Executing? && a in e.attempts
    && e == d.(attempts := d.attempts[a := d.attempts[a].(status := e.attempts[a].status)], leases := e.leases)
    && !e.attempts[a].status.Executing?
    && e.leases.Keys == d.leases.Keys
    && (forall b :: b in d.leases ==>
          && e.leases[b].task == d.leases[b].task && e.leases[b].agent == d.leases[b].agent
          && e.leases[b].resources == d.leases[b].resources
          && (|| (e.leases[b].state == d.leases[b].state && e.leases[b].releasePending == d.leases[b].releasePending)
              || (e.leases[b].state.LeaseDraining? && e.leases[b].releasePending))
          && e.leases[b].slots == (map i | i in d.leases[b].slots && d.leases[b].slots[i] != a :: d.leases[b].slots[i]))
    && (e.attempts[a].status.Uncertain? && d.attempts[a].batch in e.leases ==>
          e.leases[d.attempts[a].batch].state.LeaseDraining?)
  }

  lemma SettleReduces(d: Database, e: Database, a: Uuid)
    requires Settles(d, e, a)
    ensures Reduces(d, e)
  {
  }

  lemma SettleOwned(d: Database, e: Database, a: Uuid)
    requires Settles(d, e, a) && Owned(d)
    ensures Owned(e)
  {
  }

  lemma SettleWrites(d: Database, e: Database, a: Uuid)
    requires Settles(d, e, a) && WritesSound(d)
    ensures WritesSound(e)
  {
  }

  lemma SettleKeeps(d: Database, e: Database, a: Uuid)
    requires Settles(d, e, a) && Inv(d)
    ensures Inv(e)
  {
    hide *;
    Parts(d);
    SettleReduces(d, e, a);
    SettleOwned(d, e, a);
    SettleWrites(d, e, a);
    ReduceKeeps(d, e);
  }

  // -------------------------------------------------------- ending a task

  lemma CloseReduces(db: Database, t: TaskKey, terminal: TaskStatus)
    requires t in db.tasks
    ensures Reduces(db, CloseTask(db, t, terminal))
  {
  }

  lemma CloseOwned(db: Database, t: TaskKey, terminal: TaskStatus)
    requires t in db.tasks && terminal.IsTerminal() && Owned(db)
    ensures Owned(CloseTask(db, t, terminal))
  {
  }

  lemma CloseWrites(db: Database, t: TaskKey, terminal: TaskStatus)
    requires t in db.tasks && WritesSound(db)
    ensures WritesSound(CloseTask(db, t, terminal))
  {
  }

  lemma CloseKeeps(db: Database, t: TaskKey, terminal: TaskStatus)
    requires Inv(db) && t in db.tasks && terminal.IsTerminal()
    ensures Inv(CloseTask(db, t, terminal))
  {
    hide *;
    Parts(db);
    CloseReduces(db, t, terminal);
    CloseOwned(db, t, terminal);
    CloseWrites(db, t, terminal);
    ReduceKeeps(db, CloseTask(db, t, terminal));
  }

  /** Without an unresolved write the task's leases may go. */
  lemma ReleaseIdleKeeps(db: Database, t: TaskKey)
    requires Inv(db) && !Busy(db, t)
    ensures Inv(ReleaseTaskLeases(db, t))
  {
    assert DropsSome(db, ReleaseTaskLeases(db, t)) by {
      hide IdsUsed, Owned, Singles, Apart, QueueSound, EvidenceSound;
    }
    hide *;
    DropKeeps(db, ReleaseTaskLeases(db, t));
  }

  /** Only the task table changes. */
  lemma TasksKeep(d: Database, e: Database)
    requires Inv(d) && e == d.(tasks := e.tasks) && Owned(e)
    ensures Inv(e)
  {
    hide Owned, Singles, Apart, QueueSound, EvidenceSound, IdsUsed;
    assert Reduces(d, e);
    ReduceKeeps(d, e);
  }

  lemma StatusOwned(db: Database, t: TaskKey, status: TaskStatus)
    requires Owned(db) && t in db.tasks && status.IsTerminal()
    requires !HasTaskLease(db, t) && !HasPending(db, t)
    ensures Owned(SetStatus(db, t, status))
  {
  }

  // --------------------------------------------------------- conservation

  /** Every lease and offer of `d` still reserves at least as much in `e`, an offer
      perhaps as a lease, and the queue is the same. */
  ghost predicate HoldsOn(d: Database, e: Database) {
    && (forall b :: b in d.leases ==>
          && b in e.leases && e.leases[b].task == d.leases[b].task && e.leases[b].agent == d.leases[b].agent
          && (forall i :: i in d.leases[b].resources ==>
                i in e.leases[b].resources && e.leases[b].resources[i] == d.leases[b].resources[i]))
    && (forall b :: b in d.requests && d.requests[b].state.Offered? ==>
          || (b in e.requests && e.requests[b] == d.requests[b])
          || (b in e.leases && e.leases[b].task == d.requests[b].task && e.leases[b].agent == d.requests[b].agent
              && e.leases[b].resources == d.requests[b].resources))
    && (forall b :: b in d.requests && d.requests[b].state.Queued? ==> b in e.requests && e.requests[b] == d.requests[b])
    && (forall b :: b in e.requests && e.requests[b].state.Queued? ==> b in d.requests && e.requests[b] == d.requests[b])
  }

  lemma ClashGrows(w1: Name, r1: ResourceSet, w2: Name, r2: ResourceSet, s2: ResourceSet)
    requires Clash(w1, r1, w2, r2)
    requires forall i :: i in r2 ==> i in s2 && s2[i] == r2[i]
    ensures Clash(w1, r1, w2, s2)
  {
    hide Overlap;
  }

  lemma BlockedHolds(d: Database, e: Database, b: Uuid)
    requires HoldsOn(d, e) && b in d.requests && d.requests[b].state.Queued? && Blocked(d, b)
    ensures Blocked(e, b)
  {
    hide Clash, HasTaskLease, AgentSlotOccupied, AgentHasOffer, LeaseConflict, OfferConflict;
    var r := d.requests[b];
    if EarlierWaiter(d, b) {
      var q :| && q in d.requests && d.requests[q].state.Queued? && d.requests[q].sequence < r.sequence
               && Clash(r.task.workspace, r.resources, d.requests[q].task.workspace, d.requests[q].resources);
      assert e.requests[q] == d.requests[q];
    } else if AgentSlotOccupied(d, r.task.workspace, r.agent, None) || HasTaskLease(d, r.task) {
      LeaseStays(d, e, r);
    } else if AgentHasOffer(d, r.task.workspace, r.agent) {
      OfferStays(d, e, r);
    } else if LeaseConflict(d, r.task, r.resources) {
      LeaseConflictStays(d, e, r);
    } else {
      OfferConflictStays(d, e, r);
    }
  }

  lemma LeaseStays(d: Database, e: Database, r: Request)
    requires HoldsOn(d, e)
    ensures AgentSlotOccupied(d, r.task.workspace, r.agent, None) ==> AgentSlotOccupied(e, r.task.workspace, r.agent, None)
    ensures HasTaskLease(d, r.task) ==> HasTaskLease(e, r.task)
  {
  }

  lemma OfferStays(d: Database, e: Database, r: Request)
    requires HoldsOn(d, e) && AgentHasOffer(d, r.task.workspace, r.agent)
    ensures AgentHasOffer(e, r.task.workspace, r.agent) || AgentSlotOccupied(e, r.task.workspace, r.agent, None)
  {
  }

  lemma LeaseConflictStays(d: Database, e: Database, r: Request)
    requires HoldsOn(d, e) && LeaseConflict(d, r.task, r.resources)
    ensures LeaseConflict(e, r.task, r.resources)
  {
    hide Clash;
    var q :| && q in d.leases && d.leases[q].task != r.task
             && Clash(r.task.workspace, r.resources, d.leases[q].task.workspace, d.leases[q].resources);
    ClashGrows(r.task.workspace, r.resources, d.leases[q].task.workspace, d.leases[q].resources, e.leases[q].resources);
  }

  lemma OfferConflictStays(d: Database, e: Database, r: Request)
    requires HoldsOn(d, e) && OfferConflict(d, r.task, r.resources)
    ensures OfferConflict(e, r.task, r.resources) || LeaseConflict(e, r.task, r.resources)
  {
    hide Clash;
    var q :| && q in d.requests && d.requests[q].state.Offered? && d.requests[q].task != r.task
             && Clash(r.task.workspace, r.resources, d.requests[q].task.workspace, d.requests[q].resources);
  }

  lemma HoldsConserved(d: Database, e: Database)
    requires Conserved(d) && HoldsOn(d, e)
    ensures Conserved(e)
  {
    hide Blocked;
    forall b | b in e.requests && e.requests[b].state.Queued? ensures Blocked(e, b) {
      BlockedHolds(d, e, b);
    }
  }

  /** What every accepted command promises of the state it leaves. */
  ghost predicate Safe(outcome: Outcome) {
    outcome.Accepted? ==> Inv(outcome.db) && Conserved(outcome.db)
  }
}
