/** What starting, keeping alive and ending a task, and taking up or giving up a lease, are
    answered and leave behind (crates/stateful-store/src/store_v2.rs). */
module TaskAnswers {
  import opened Basics
  import opened Tables
  import opened Sweeps
  import opened ReadEvidence
  import opened Commands
  import opened Invariants
  import opened Safety
  import opened Deadlines
  import opened PrepareAnswers

  /** The task exists and is the client's. */
  predicate Mine(db: Database, ctx: Context) {
    TaskKey(ctx.workspace, ctx.task) in db.tasks && db.tasks[TaskKey(ctx.workspace, ctx.task)].agent == ctx.agent
  }

  // ----------------------------------------------------------------- tasks

  /** Three heartbeats fit into the inactivity timeout, and three leases outlast it. */
  predicate Sensible(s: Settings) {
    && 0 < s.heartbeatInterval && 0 < s.inactivityTimeout && 0 < s.leaseExpiry && 0 < s.offerTtl
    && 3 * s.heartbeatInterval <= s.inactivityTimeout < 3 * s.leaseExpiry
  }

  lemma SensibleExact(s: Settings)
    ensures s.Valid() <==> Sensible(s)
  {
    var third := s.inactivityTimeout / 3;
    assert 3 * third <= s.inactivityTimeout < 3 * third + 3;
  }

  /** A task is started once. Starting it again is answered with what it is, and only to the
      agent that started it. */
  lemma StartAnswer(db: Database, ctx: Context, cmd: Command)
    requires cmd.TaskStart?
    ensures var t := ctx.Task();
            var proper :=
              && cmd.nextAction != BLANK && Sensible(cmd.settings)
              && ctx.observedAt < cmd.taskExpiresAt <= ctx.observedAt + cmd.settings.inactivityTimeout;
            if !proper then StartTask(db, ctx, cmd) == Rejected(InvalidInput)
            else if t in db.tasks && db.tasks[t].agent != ctx.agent then StartTask(db, ctx, cmd) == Rejected(Ownership)
            else if t in db.tasks then
              StartTask(db, ctx, cmd) == Accepted(db, TaskResult(ctx.task, db.tasks[t].status, db.tasks[t].status == Draining))
            else if cmd.processIdentity == Some(BLANK) then StartTask(db, ctx, cmd) == Rejected(InvalidInput)
            else StartTask(db, ctx, cmd) ==
                 Accepted(db.(tasks := db.tasks[t := Task(ctx.agent, Active, None, cmd.settings, cmd.taskExpiresAt)]),
                          TaskResult(ctx.task, Active, false))
  {
    SensibleExact(cmd.settings);
    hide Sensible;
  }

  /** A heartbeat moves the task's deadline to the time asked for, within the inactivity
      timeout, and does nothing else. */
  lemma HeartbeatAnswer(db: Database, ctx: Context, cmd: Command)
    requires cmd.TaskHeartbeat?
    ensures var t := ctx.Task();
            && (Heartbeat(db, ctx, cmd).Accepted? <==>
                  && Mine(db, ctx) && db.tasks[t].status == Active && cmd.nextAction != BLANK
                  && ctx.observedAt < cmd.taskExpiresAt <= ctx.observedAt + db.tasks[t].settings.inactivityTimeout)
            && (Heartbeat(db, ctx, cmd).Accepted? ==>
                  && t in db.tasks
                  && Heartbeat(db, ctx, cmd).db == db.(tasks := db.tasks[t := db.tasks[t].(expiresAt := cmd.taskExpiresAt)])
                  && Heartbeat(db, ctx, cmd).response == TaskResult(ctx.task, Active, false))
  {
  }

  // ---------------------------------------------------------------- ending

  /** What the task knew and waited for is gone: its evidence, its read intents, its requests. */
  ghost predicate TaskCleared(d: Database, e: Database, t: TaskKey) {
    && e.evidence.Keys == d.evidence.Keys && e.intents.Keys == d.intents.Keys && e.requests.Keys == d.requests.Keys
    && (forall k | k in d.evidence :: e.evidence[k] == if d.evidence[k].task == t then d.evidence[k].(valid := false) else d.evidence[k])
    && (forall i | i in d.intents ::
          e.intents[i] == if i.task == t && d.intents[i].status == Held then d.intents[i].(status := Released) else d.intents[i])
    && (forall b | InQueue(d, t, b) :: e.requests[b] == d.requests[b].(state := Withdrawn))
  }

  /** Its leases drain, all at once. */
  ghost predicate TaskLeasesDrain(d: Database, e: Database, t: TaskKey) {
    && e.leases.Keys == d.leases.Keys
    && forall b | b in d.leases :: e.leases[b] ==
         if d.leases[b].task == t then d.leases[b].(state := LeaseDraining, releasePending := true) else d.leases[b]
  }

  /** Its leases are gone. */
  ghost predicate TaskLeasesGo(d: Database, e: Database, t: TaskKey) {
    && (forall b :: b in e.leases <==> b in d.leases && d.leases[b].task != t)
    && (forall b | b in e.leases :: e.leases[b] == d.leases[b])
  }

  lemma ClosedClears(db: Database, t: TaskKey, terminal: TaskStatus)
    requires t in db.tasks
    ensures TaskCleared(db, CloseTask(db, t, terminal), t)
    ensures CloseTask(db, t, terminal).leases == db.leases && CloseTask(db, t, terminal).attempts == db.attempts
    ensures CloseTask(db, t, terminal).tasks == db.tasks[t := db.tasks[t].(status := Draining, terminal := Some(terminal))]
  {
  }

  /** Ending a task that has a write unaccounted for lets it and its leases drain; it will be
      completed or cancelled, as asked, once that write is reported. Ending any other task
      does so at once. A task that has ended stays as it is. */
  lemma EndAnswer(db: Database, ctx: Context, cmd: Command)
    requires Inv(db) && Conserved(db) && cmd.TaskEnd?
    ensures EndTask(db, ctx, cmd).Accepted? <==> Mine(db, ctx)
    ensures Mine(db, ctx) ==>
      var t, e := ctx.Task(), EndTask(db, ctx, cmd).db;
      var last := if cmd.kind == Finalize then Completed else Cancelled;
      if db.tasks[t].status == Completed || db.tasks[t].status == Failed || db.tasks[t].status == Cancelled then
        EndTask(db, ctx, cmd) == Accepted(db, TaskResult(ctx.task, db.tasks[t].status, false))
      else
        && TaskCleared(db, e, t)
        && e.tasks == db.tasks[t := db.tasks[t].(status := if Unaccounted(db, t) then Draining else last, terminal := Some(last))]
        && (if Unaccounted(db, t)
            then TaskLeasesDrain(db, e, t) && EndTask(db, ctx, cmd).response == TaskResult(ctx.task, Draining, true)
            else TaskLeasesGo(db, e, t) && EndTask(db, ctx, cmd).response == TaskResult(ctx.task, last, false))
  {
    hide Inv, Conserved, CloseTask, Promote, Busy, Unaccounted, TaskCleared, ReleaseTaskLeases, DrainTaskLeases, TaskLeasesGo;
    hide TaskLeasesDrain;
    if Mine(db, ctx) {
      var t, last := ctx.Task(), cmd.kind.Status();
      if !db.tasks[t].status.IsTerminal() {
        var closed := CloseTask(db, t, last);
        ClosedClears(db, t, last);
        BusyMeant(closed, t);
        SameUnaccounted(db, closed, t);
        if Busy(closed, t) {
          DrainedLeases(closed, t);
          DrainedCleared(db, closed, t);
        } else {
          SameBusy(db, t, last);
          EndedLeaves(db, ctx, t, last);
        }
      }
    }
  }

  lemma DrainedLeases(db: Database, t: TaskKey)
    ensures TaskLeasesDrain(db, DrainTaskLeases(db, t), t)
    ensures DrainTaskLeases(db, t) == db.(leases := DrainTaskLeases(db, t).leases)
  {
  }

  lemma DrainedCleared(db: Database, closed: Database, t: TaskKey)
    requires TaskCleared(db, closed, t) && closed.leases == db.leases && TaskLeasesDrain(closed, DrainTaskLeases(closed, t), t)
    ensures TaskCleared(db, DrainTaskLeases(closed, t), t) && TaskLeasesDrain(db, DrainTaskLeases(closed, t), t)
  {
    hide InQueue;
  }

  lemma ReleasedLeases(db: Database, t: TaskKey)
    ensures TaskLeasesGo(db, ReleaseTaskLeases(db, t), t)
    ensures ReleaseTaskLeases(db, t) == db.(leases := ReleaseTaskLeases(db, t).leases)
  {
  }

  lemma EndedLeaves(db: Database, ctx: Context, t: TaskKey, last: TaskStatus)
    requires Inv(db) && t in db.tasks && last.IsTerminal() && !Busy(CloseTask(db, t, last), t)
    requires t in ReleaseTaskLeases(CloseTask(db, t, last), t).tasks
    ensures var e := Promote(SetStatus(ReleaseTaskLeases(CloseTask(db, t, last), t), t, last), ctx.observedAt);
            && TaskCleared(db, e, t) && TaskLeasesGo(db, e, t)
            && e.tasks == db.tasks[t := db.tasks[t].(status := last, terminal := Some(last))]
  {
    hide Inv, CloseTask, Promote, Busy, TaskCleared, ReleaseTaskLeases, TaskLeasesGo;
    var closed := CloseTask(db, t, last);
    var released := ReleaseTaskLeases(closed, t);
    var ended := SetStatus(released, t, last);
    var e := Promote(ended, ctx.observedAt);
    ClosedClears(db, t, last);
    ReleasedLeases(closed, t);
    SameBusy(db, t, last);
    EndIdleKeeps(db, t, last);
    Deadlines.PromoteKnows(ended, ctx.observedAt);
    ClearedThenMoved(db, closed, ended, t, ctx.observedAt);
    SameGone(db, closed, released, e, t);
    assert e.tasks == db.tasks[t := db.tasks[t].(status := last, terminal := Some(last))];
  }

  lemma SameGone(db: Database, closed: Database, released: Database, e: Database, t: TaskKey)
    requires TaskLeasesGo(closed, released, t) && closed.leases == db.leases && e.leases == released.leases
    ensures TaskLeasesGo(db, e, t)
  {
  }

  lemma ClearedThenMoved(db: Database, closed: Database, ended: Database, t: TaskKey, now: Instant)
    requires Inv(ended) && TaskCleared(db, closed, t)
    requires ended.evidence == closed.evidence && ended.intents == closed.intents && ended.requests == closed.requests
    ensures TaskCleared(db, Promote(ended, now), t)
  {
    hide Inv, Promote, InQueue;
    Deadlines.PromoteKnows(ended, now);
    PromotedKeys(ended, now);
    forall b | InQueue(db, t, b) ensures b in db.requests && Promote(ended, now).requests[b] == db.requests[b].(state := Withdrawn) {
      QueuedKnown(db, t, b);
      PromoteFate(ended, now, b);
    }
  }

  lemma QueuedKnown(db: Database, t: TaskKey, b: Uuid)
    requires InQueue(db, t, b)
    ensures b in db.requests
  {
  }

  lemma PromotedKeys(db: Database, now: Instant)
    ensures Promote(db, now).requests.Keys == db.requests.Keys
  {
    hide PromoteThrough;
    PromoteFrame(db, db.queueSequence, now);
  }

  // ---------------------------------------------------------------- leases

  /** A client may give up its own lease only. An idle one is gone; one with a write under
      way drains, and is gone once that is reported. */
  lemma ReleaseAnswer(db: Database, ctx: Context, cmd: Command)
    requires Inv(db) && cmd.LeaseRelease?
    ensures ReleaseLease(db, ctx, cmd).Accepted? <==> Mine(db, ctx) && HoldsLease(db, ctx.Task(), cmd.batch)
    ensures ReleaseLease(db, ctx, cmd).Accepted? ==>
      var e, response := ReleaseLease(db, ctx, cmd).db, ReleaseLease(db, ctx, cmd).response;
      && cmd.batch in db.leases
      && (if db.leases[cmd.batch].slots == map[] then
            e.leases == db.leases - {cmd.batch} && response == ReleaseResult(cmd.batch, true)
          else
            && e == db.(leases := db.leases[cmd.batch := db.leases[cmd.batch].(state := LeaseDraining, releasePending := true)])
            && response == ReleaseResult(cmd.batch, false))
  {
    hide Inv, HasTaskLease, Promote;
    LeaseMeant(db, ctx.Task());
    Deadlines.PromoteKnows(DropLease(db, cmd.batch), ctx.observedAt);
  }

  /** Taking up an offer turns the request into a lease on what was offered, under the next
      version, and revokes what others know of it; a refusal changes nothing. */
  lemma ActivationLeaves(db: Database, ctx: Context, cmd: Command)
    requires cmd.LeaseActivate? && ActivateLease(db, ctx, cmd).Accepted?
    ensures ActivateLease(db, ctx, cmd).response.ActivateResult? && ActivateLease(db, ctx, cmd).response.batch == cmd.batch
    ensures cmd.batch in db.requests
    ensures var e, r := ActivateLease(db, ctx, cmd).db, db.requests[cmd.batch];
            if !ActivateLease(db, ctx, cmd).response.active then e == db
            else
              && cmd.batch !in db.leases
              && e.leases == db.leases[cmd.batch := Lease(ctx.Task(), ctx.agent, LeaseActive, r.version + 1, cmd.leaseExpiresAt,
                                                          false, r.resources, map[])]
              && e.requests == db.requests[cmd.batch := r.(state := Activated, version := r.version + 1)]
              && e == db.(leases := e.leases, requests := e.requests, intents := e.intents, evidence := e.evidence)
  {
    hide CurrentObservations, HasCurrentEvidence, Conflict, HasTaskLease, AgentSlotOccupied, OwnerError, WithinWindow, Revoke;
    if cmd.batch in db.requests { ActivatedFrame(db, ctx, cmd); }
  }

  lemma ActivatedFrame(db: Database, ctx: Context, cmd: Command)
    requires cmd.LeaseActivate? && cmd.batch in db.requests
    ensures var e := WithActivated(db, ctx, cmd);
            e == db.(leases := e.leases, requests := e.requests, intents := e.intents, evidence := e.evidence)
  {
    hide Hit;
  }
}
