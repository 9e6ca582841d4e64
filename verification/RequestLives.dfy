/** The life of a lease request: offers that can be taken up, chains of replaced
    requests, and the declared state table (crates/stateful-store/src/store_v2.rs,
    crates/stateful-core/src/coordination.rs). */
module RequestLives {
  import opened Basics
  import opened Resources
  import opened Operations
  import opened Tables
  import opened Sweeps
  import opened Commands
  import opened Invariants
  import opened SweepProofs
  import opened Evolution
  import opened Runs

  // ------------------------------------------------------------------ offers

  /** The task has read the current state of everything on offer since the offer was made. */
  ghost predicate ReadSinceOffer(db: Database, r: Request)
    requires r.offer.Some?
  {
    forall i :: i in r.resources ==>
      var ref := ResourceRef(r.task.workspace, i);
      && ref in db.resources
      && ReadSince(db, r.task, Observation(ResourceKey(r.task.workspace, i, r.resources[i]),
                                           db.resources[ref].state, db.resources[ref].generation), r.offer.value.offeredAt)
  }

  /** Valid evidence of exactly this observation, from a read begun at that time or later. */
  ghost predicate ReadSince(db: Database, t: TaskKey, o: Observation, since: Instant) {
    exists e :: && e in db.evidence && e.id == o.key.id && db.evidence[e].task == t && db.evidence[e].valid
                && db.evidence[e].observation == o
                && db.evidence[e].source.FromRead? && since <= db.evidence[e].source.startedAt
  }

  lemma ReadSinceExact(db: Database, t: TaskKey, o: Observation, since: Instant)
    ensures HasEvidence(db, t, o, Some(since)) <==> ReadSince(db, t, o, since)
  {
  }

  /** All a client has to see to: the offer it names is the live one, what is on
      offer has been read since, and its agent holds no lease. */
  ghost predicate CanTakeUp(db: Database, ctx: Context, cmd: Command)
    requires cmd.LeaseActivate? && cmd.batch in db.requests
  {
    var r := db.requests[cmd.batch];
    && r.state.Offered? && r.offer.Some? && r.offer.value.id == cmd.offer && r.version == cmd.version
    && ReadSinceOffer(db, r)
    && (forall b :: b in db.leases && db.leases[b].task.workspace == ctx.workspace ==> db.leases[b].agent != ctx.agent)
  }

  /** The request is of the client's own active task, and the lease is asked for in time. */
  predicate WellAddressed(db: Database, ctx: Context, cmd: Command)
    requires cmd.LeaseActivate?
  {
    && ctx.Task() in db.tasks && db.tasks[ctx.Task()].agent == ctx.agent && db.tasks[ctx.Task()].status == Active
    && ctx.observedAt < cmd.leaseExpiresAt <= ctx.observedAt + db.tasks[ctx.Task()].settings.leaseExpiry
    && cmd.batch in db.requests && db.requests[cmd.batch].task == ctx.Task()
  }

  lemma FreshEvidence(db: Database, r: Request)
    requires r.offer.Some? && forall i :: i in r.resources ==> ResourceRef(r.task.workspace, i) in db.resources
    ensures var current := CurrentObservations(db, r.task.workspace, r.resources);
            current.Ok? && (HasCurrentEvidence(db, r.task, current.value, Some(r.offer.value.offeredAt)) <==> ReadSinceOffer(db, r))
  {
    hide HasEvidence, ReadSince;
    var w := r.task.workspace;
    var os := CurrentObservations(db, w, r.resources).value;
    forall i | i in r.resources
      ensures os[i] == Observation(ResourceKey(w, i, r.resources[i]), db.resources[ResourceRef(w, i)].state,
                                   db.resources[ResourceRef(w, i)].generation)
      ensures HasEvidence(db, r.task, os[i], Some(r.offer.value.offeredAt)) <==> ReadSince(db, r.task, os[i], r.offer.value.offeredAt)
    {
      ReadSinceExact(db, r.task, os[i], r.offer.value.offeredAt);
    }
  }

  lemma NoConflictWithOffer(db: Database, b: Uuid)
    requires Apart(db) && b in db.requests && db.requests[b].state.Offered?
    ensures !Conflict(db, db.requests[b].task, db.requests[b].resources)
  {
    ClashSymmetric();
    hide Clash;
  }

  lemma OfferRecorded(db: Database, b: Uuid)
    requires Inv(db) && b in db.requests && db.requests[b].state.Offered?
    ensures forall i :: i in db.requests[b].resources ==> ResourceRef(db.requests[b].task.workspace, i) in db.resources
    ensures b !in db.leases && !HasTaskLease(db, db.requests[b].task)
  {
    hide IdsUsed, Owned, Apart, QueueSound, WritesSound, EvidenceRecorded, EvidenceCurrent, ReadsClearOfWrites;
    hide OneLeasePerAgent, OnePendingPerTask, OneOfferPerAgent;
  }

  /** A well-addressed activation succeeds exactly when the client has done its part:
      the conflict check, the missing-resource error and the key constraint behind it
      never decide anything. */
  lemma ActivationExact(db: Database, ctx: Context, cmd: Command)
    requires Inv(db) && cmd.LeaseActivate?
    ensures ActivateLease(db, ctx, cmd).Accepted? <==> WellAddressed(db, ctx, cmd)
    ensures WellAddressed(db, ctx, cmd) ==>
              ActivateLease(db, ctx, cmd).response == ActivateResult(cmd.batch, CanTakeUp(db, ctx, cmd))
  {
    hide WithActivated;
    if WellAddressed(db, ctx, cmd) { AddressedActivation(db, ctx, cmd); }
  }

  lemma AddressedActivation(db: Database, ctx: Context, cmd: Command)
    requires Inv(db) && cmd.LeaseActivate? && WellAddressed(db, ctx, cmd)
    ensures ActivateLease(db, ctx, cmd).Accepted?
    ensures ActivateLease(db, ctx, cmd).response == ActivateResult(cmd.batch, CanTakeUp(db, ctx, cmd))
  {
    hide Inv, Conflict, HasTaskLease, ReadSinceOffer, CurrentObservations, HasCurrentEvidence;
    hide WithActivated, Apart;
    var r := db.requests[cmd.batch];
    if r.state.Offered? {
      Parts(db);
      OfferRecorded(db, cmd.batch);
      NoConflictWithOffer(db, cmd.batch);
      if r.offer.Some? { FreshEvidence(db, r); }
    }
  }

  /** No offer is wasted, after any run and at any claimed time. */
  lemma NoWastedOffers(run: seq<Event>, ctx: Context, cmd: Command)
    requires cmd.LeaseActivate? && WellAddressed(Sweep(StateAfter(run), ctx.observedAt), ctx, cmd)
    ensures var db := Sweep(StateAfter(run), ctx.observedAt);
            && Operate(db, ctx, cmd).Accepted?
            && Operate(db, ctx, cmd).response == ActivateResult(cmd.batch, CanTakeUp(db, ctx, cmd))
  {
    hide StateAfter, Inv, Conserved, Sweep, WellAddressed, CanTakeUp, ActivateLease;
    RunSafe(run);
    SweepKeeps(StateAfter(run), ctx.observedAt);
    ActivationExact(Sweep(StateAfter(run), ctx.observedAt), ctx, cmd);
  }

  // ------------------------------------------------------------------ chains

  lemma ChainLink(db: Database, b: Uuid)
    requires Inv(db) && b in db.requests && db.requests[b].state.Superseded?
    ensures db.requests[b].supersededBy.Some? && db.requests[b].supersededBy.value in db.requests
    ensures var next := db.requests[db.requests[b].supersededBy.value];
            && next.task == db.requests[b].task
            && db.requests[b].sequence < next.sequence <= db.queueSequence
            && db.requests[b].resources.Keys <= next.resources.Keys
  {
    hide IdsUsed, TasksSound, LeasesOwned, Singles, Apart, SequencesDistinct, NoOvertaking, WritesSound, EvidenceSound;
  }

  /** The request at the end of the chain of replacements. */
  ghost function Last(db: Database, b: Uuid): (last: Uuid)
    requires Inv(db) && b in db.requests
    ensures last in db.requests && !db.requests[last].state.Superseded?
    ensures db.requests[last].task == db.requests[b].task
    ensures last == b || db.requests[b].sequence < db.requests[last].sequence
    ensures db.requests[b].resources.Keys <= db.requests[last].resources.Keys
    decreases db.queueSequence - db.requests[b].sequence
  {
    if db.requests[b].state.Superseded? then
      ChainLink(db, b);
      Last(db, db.requests[b].supersededBy.value)
    else b
  }

  /** A client that polls while the store moves on does not lose its way: what it
      found at any moment leads on to where the chain ends later. */
  lemma {:induction false} ChainStable(d: Database, e: Database, b: Uuid)
    requires Inv(d) && Inv(e) && RequestsEvolve(d, e) && b in d.requests
    ensures Last(d, b) in e.requests && Last(e, b) == Last(e, Last(d, b))
    decreases d.queueSequence - d.requests[b].sequence
  {
    hide Inv;
    if d.requests[b].state.Superseded? {
      ChainLink(d, b);
      ChainStable(d, e, d.requests[b].supersededBy.value);
    }
  }

  /** After every run each superseded request leads, in a bounded number of steps, to
      one that is not, of the same task, later in the queue and covering at least as
      much; and the requests found on the way at earlier moments lead there too. */
  lemma ChainsEnd(run: seq<Event>, i: nat, b: Uuid)
    requires i <= |run| && b in StateAfter(run[..i]).requests
    ensures Inv(StateAfter(run[..i])) && Inv(StateAfter(run)) && b in StateAfter(run).requests
    ensures var last := Last(StateAfter(run), b);
            && !StateAfter(run).requests[last].state.Superseded?
            && Last(StateAfter(run[..i]), b) in StateAfter(run).requests
            && Last(StateAfter(run), Last(StateAfter(run[..i]), b)) == last
            && OnePendingPerTask(StateAfter(run))
  {
    hide StateAfter, Conserved, Last;
    RunSafe(run);
    RunLater(run, i);
    assert RequestsEvolve(StateAfter(run[..i]), StateAfter(run)) && OnePendingPerTask(StateAfter(run)) by {
      hide IdsUsed, Owned, OneLeasePerAgent, OneOfferPerAgent, NoHoldAndWait, PendingUnused, OnePendingPerTask;
      hide Apart, QueueSound, WritesSound, EvidenceSound;
      hide ResourcesEvolve, EvidenceEvolves, TasksEvolve, AttemptsEvolve, LeasesEvolve, ReceiptsEvolve, RequestsEvolve;
    }
    hide Inv, Later;
    ChainStable(StateAfter(run[..i]), StateAfter(run), b);
  }

  // ------------------------------------------------------------ state table

  datatype Life = LifeQueued | LifeOffered | LifeActive | LifeDraining | LifeReleased | LifeExpired | LifeCancelled | LifeSuperseded {
    /** The declared table of moves. */
    predicate CanTransitionTo(next: Life) {
      match this
      case LifeQueued => next in {LifeOffered, LifeCancelled, LifeExpired, LifeSuperseded}
      case LifeOffered => next in {LifeActive, LifeQueued, LifeCancelled, LifeExpired, LifeSuperseded}
      case LifeActive => next in {LifeDraining, LifeReleased, LifeExpired, LifeCancelled}
      case LifeDraining => next in {LifeReleased, LifeExpired}
      case _ => false
    }
  }

  function LifeOf(state: RequestState): Life {
    match state
    case Queued => LifeQueued
    case Offered => LifeOffered
    case Activated => LifeActive
    case Superseded => LifeSuperseded
    case Expired => LifeExpired
    case Withdrawn => LifeCancelled
  }

  /** A series of moves of the table. */
  predicate IsPath(path: seq<Life>) {
    path != [] && forall i :: 0 < i < |path| ==> path[i - 1].CanTransitionTo(path[i])
  }

  function PathOf(s: RequestState, s': RequestState): (path: seq<Life>) {
    if s == s' then [LifeOf(s)]
    else if s.Queued? && s'.Activated? then [LifeQueued, LifeOffered, LifeActive]
    else [LifeOf(s), LifeOf(s')]
  }

  function LeaseLife(state: LeaseState): Life { if state.LeaseActive? then LifeActive else LifeDraining }

  /** From any moment of a run to any later one, a request and a lease have moved only
      along the table, and never back from an offer into the queue. */
  lemma TableObserved(run: seq<Event>, i: nat, b: Uuid)
    requires i <= |run|
    ensures b in StateAfter(run[..i]).requests ==>
              && b in StateAfter(run).requests
              && var s, s' := StateAfter(run[..i]).requests[b].state, StateAfter(run).requests[b].state;
              var path := PathOf(s, s');
              && IsPath(path) && path[0] == LifeOf(s) && path[|path| - 1] == LifeOf(s') && LifeQueued !in path[1..]
    ensures b in StateAfter(run[..i]).leases && b in StateAfter(run).leases ==>
              var s, s' := LeaseLife(StateAfter(run[..i]).leases[b].state), LeaseLife(StateAfter(run).leases[b].state);
              s == s' || s.CanTransitionTo(s')
  {
    hide StateAfter, Inv;
    RunLater(run, i);
    hide ResourcesEvolve, EvidenceEvolves, TasksEvolve, AttemptsEvolve, ReceiptsEvolve;
  }
}
