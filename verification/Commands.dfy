/** The commands of the lease protocol as functions of the tables, and the
    transactional wrapper every command runs in
    (crates/stateful-store/src/store_v2.rs). */
module Commands {
  import opened Basics
  import opened Resources
  import opened Operations
  import opened Tables
  import opened Sweeps
  import opened ReadEvidence

  function OwnerError(db: Database, ctx: Context, requireActive: bool): Option<StoreError> {
    if ctx.Task() !in db.tasks then Some(NotFound)
    else if db.tasks[ctx.Task()].agent != ctx.agent then Some(Ownership)
    else if requireActive && !db.tasks[ctx.Task()].status.Active? then Some(InvalidState)
    else None
  }

  predicate WithinWindow(observedAt: Instant, expiresAt: Instant, maximum: nat) {
    observedAt < expiresAt <= observedAt + maximum
  }

  // ---------------------------------------------------------------- tasks

  function StartTask(db: Database, ctx: Context, cmd: Command): Outcome
    requires cmd.TaskStart?
  {
    if cmd.nextAction == BLANK || !cmd.settings.Valid()
       || !WithinWindow(ctx.observedAt, cmd.taskExpiresAt, cmd.settings.inactivityTimeout)
    then Rejected(InvalidInput)
    else if ctx.Task() in db.tasks then
      var task := db.tasks[ctx.Task()];
      if task.agent != ctx.agent then Rejected(Ownership)
      else Accepted(db, TaskResult(ctx.task, task.status, task.status.Draining?))
    else if cmd.processIdentity == Some(BLANK) then Rejected(InvalidInput)
    else
      Accepted(
        db.(tasks := db.tasks[ctx.Task() := Task(ctx.agent, Active, None, cmd.settings, cmd.taskExpiresAt)]),
        TaskResult(ctx.task, Active, false))
  }

  function Heartbeat(db: Database, ctx: Context, cmd: Command): Outcome
    requires cmd.TaskHeartbeat?
  {
    var e := OwnerError(db, ctx, true);
    if e.Some? then Rejected(e.value)
    else
      var task := db.tasks[ctx.Task()];
      if !WithinWindow(ctx.observedAt, cmd.taskExpiresAt, task.settings.inactivityTimeout) || cmd.nextAction == BLANK
      then Rejected(InvalidInput)
      else
        Accepted(db.(tasks := db.tasks[ctx.Task() := task.(expiresAt := cmd.taskExpiresAt)]),
                 TaskResult(ctx.task, task.status, task.status.Draining?))
  }

  function ReleasedIntents(intents: map<IntentKey, Intent>, t: TaskKey): map<IntentKey, Intent> {
    map i | i in intents :: if i.task == t && intents[i].status.Held? then intents[i].(status := Released) else intents[i]
  }

  function LapsedEvidence(evidence: map<EvidenceKey, Evidence>, t: TaskKey): map<EvidenceKey, Evidence> {
    map e | e in evidence :: if evidence[e].task == t then evidence[e].(valid := false) else evidence[e]
  }

  function Undone(requests: map<Uuid, Request>, t: TaskKey): map<Uuid, Request> {
    map b | b in requests ::
      if requests[b].task == t && requests[b].Pending() then requests[b].(state := Withdrawn) else requests[b]
  }

  /** The task starts draining: its reads, evidence and pending requests go at once. */
  function CloseTask(db: Database, t: TaskKey, terminal: TaskStatus): Database
    requires t in db.tasks
  {
    db.(tasks := db.tasks[t := db.tasks[t].(status := Draining, terminal := Some(terminal))],
        intents := ReleasedIntents(db.intents, t),
        evidence := LapsedEvidence(db.evidence, t),
        requests := Undone(db.requests, t))
  }

  function ReleaseTaskLeases(db: Database, t: TaskKey): Database {
    db.(leases := map b | b in db.leases && db.leases[b].task != t :: db.leases[b])
  }

  function DrainTaskLeases(db: Database, t: TaskKey): Database {
    db.(leases := map b | b in db.leases ::
          if db.leases[b].task == t then Drained(db.leases[b]) else db.leases[b])
  }

  function SetStatus(db: Database, t: TaskKey, status: TaskStatus): Database
    requires t in db.tasks
  {
    db.(tasks := db.tasks[t := db.tasks[t].(status := status)])
  }

  ghost function EndTask(db: Database, ctx: Context, cmd: Command): Outcome
    requires cmd.TaskEnd?
  {
    var e := OwnerError(db, ctx, false);
    if e.Some? then Rejected(e.value)
    else
      var t := ctx.Task();
      var status := db.tasks[t].status;
      if status.IsTerminal() then Accepted(db, TaskResult(ctx.task, status, false))
      else
        var closed := CloseTask(db, t, cmd.kind.Status());
        if Busy(closed, t) then
          Accepted(DrainTaskLeases(closed, t), TaskResult(ctx.task, Draining, true))
        else
          var ended := SetStatus(ReleaseTaskLeases(closed, t), t, cmd.kind.Status());
          Accepted(Promote(ended, ctx.observedAt), TaskResult(ctx.task, cmd.kind.Status(), false))
  }

  // ---------------------------------------------------------------- reads

  ghost function StartRead(db: Database, ctx: Context, cmd: Command): Outcome
    requires cmd.ReadStart?
  {
    var e := OwnerError(db, ctx, true);
    if e.Some? then Rejected(e.value)
    else if cmd.readId == BLANK || cmd.invocation == BLANK then Rejected(InvalidInput)
    else
      var os := Canonical(ctx.workspace, cmd.observations);
      if os.Err? then Rejected(os.error)
      else if os.value == map[] then Rejected(InvalidInput)
      else if cmd.readId in db.readAttempts then Rejected(InvalidState)
      else if exists r :: r in db.readAttempts && db.readAttempts[r].task == ctx.Task()
                       && db.readAttempts[r].invocation == cmd.invocation then Rejected(ConstraintViolation)
      else
        var synced := Sync(db, ctx.workspace, os.value);
        Accepted(
          synced.(readAttempts := synced.readAttempts[cmd.readId :=
                    ReadAttempt(ctx.Task(), cmd.invocation, Synced(db, os.value), ReadStarted, ctx.observedAt)]),
          ReadResult(cmd.readId, ReadStarted, None))
  }

  function FinishRead(db: Database, readId: Name, status: ReadStatus): Database
    requires readId in db.readAttempts
  {
    db.(readAttempts := db.readAttempts[readId := db.readAttempts[readId].(status := status)])
  }

  ghost function CompleteRead(db: Database, ctx: Context, cmd: Command): Outcome
    requires cmd.ReadComplete?
  {
    var e := OwnerError(db, ctx, true);
    if e.Some? then Rejected(e.value)
    else if cmd.readId !in db.readAttempts || db.readAttempts[cmd.readId].task != ctx.Task() then Rejected(NotFound)
    else
      var read := db.readAttempts[cmd.readId];
      if read.invocation != cmd.invocation then Rejected(Ownership)
      else if !read.status.ReadStarted? then Rejected(InvalidState)
      else
        var failed := Accepted(FinishRead(db, cmd.readId, ReadFailed), ReadResult(cmd.readId, ReadFailed, None));
        if !(cmd.terminalSuccess && cmd.complete && cmd.stable && cmd.exact) then failed
        else
          var reported := Canonical(ctx.workspace, cmd.observations);
          var current := CurrentObservations(db, ctx.workspace, KeySet(read.started));
          if reported.Err? then Rejected(reported.error)
          else if current.Err? then Rejected(current.error)
          else if read.started != current.value || !SameStates(read.started, reported.value) then failed
          else
            var done := FinishRead(db, cmd.readId, ReadCompleted);
            Accepted(RecordRead(done, ctx.Task(), current.value, read.startedAt),
                     ReadResult(cmd.readId, ReadCompleted, Some(db.nextUuid)))
  }

  // --------------------------------------------------------------- writes

  ghost function HeldResources(db: Database, t: TaskKey): ResourceSet {
    if HasTaskLease(db, t) then db.leases[TaskLease(db, t)].resources else map[]
  }

  ghost function PendingResources(db: Database, t: TaskKey): ResourceSet {
    if HasPending(db, t) then db.requests[PendingRequest(db, t)].resources else map[]
  }

  /** Everything the task holds, waits for or asks for. */
  ghost function Union(db: Database, t: TaskKey, requested: ResourceSet): ResourceSet {
    Merge(Merge(HeldResources(db, t), PendingResources(db, t)), requested)
  }

  ghost predicate Contended(db: Database, ctx: Context, union: ResourceSet) {
    || HasPending(db, ctx.Task())
    || AgentSlotOccupied(db, ctx.workspace, ctx.agent, Some(ctx.Task()))
    || Conflict(db, ctx.Task(), union)
    || QueueConflict(db, ctx.Task(), union)
  }

  function Replaced(requests: map<Uuid, Request>, t: TaskKey, b: Uuid): map<Uuid, Request> {
    map q | q in requests ::
      if requests[q].task == t && requests[q].Pending()
      then requests[q].(state := Superseded, supersededBy := Some(b), version := requests[q].version + 1)
      else requests[q]
  }

  /** A new request at the back of the queue replaces the task's pending one. */
  function Enqueue(db: Database, ctx: Context, rs: ResourceSet, expiresAt: Instant): Database {
    var b := db.nextUuid;
    db.(requests := Replaced(db.requests, ctx.Task(), b)[b := Request(ctx.Task(), ctx.agent, Queued, 1, db.queueSequence + 1,
                                          None, expiresAt, None, rs)],
        queueSequence := db.queueSequence + 1,
        nextUuid := b + 1)
  }

  ghost function JoinQueue(db: Database, ctx: Context, cmd: Command, reported: ObservationSet, union: ResourceSet): Outcome
    requires cmd.WritePrepare?
  {
    var t := ctx.Task();
    if !HasHistoricalEvidence(db, t, reported) then
      Accepted(db, RereadRequired(
        (if HasTaskLease(db, t) then [TaskLease(db, t)] else [])
        + (if HasPending(db, t) then [PendingRequest(db, t)] else [])))
    else if HasTaskLease(db, t) && db.leases[TaskLease(db, t)].slots != map[] then Accepted(db, Denied)
    else if !HasTaskLease(db, t) && HasPending(db, t) && db.requests[PendingRequest(db, t)].resources == union then
      Accepted(db, QueuedAs(PendingRequest(db, t)))
    else
      var free := if HasTaskLease(db, t) then Promote(ReleaseTaskLeases(db, t), ctx.observedAt) else db;
      var queued := Enqueue(free, ctx, union, cmd.requestExpiresAt);
      Accepted(Promote(queued, ctx.observedAt), QueuedAs(free.nextUuid))
  }

  /** The lease that a direct grant writes under: a new one, or the task's own, grown. */
  ghost function GrantBatch(db: Database, t: TaskKey): Uuid {
    if HasTaskLease(db, t) then TaskLease(db, t) else db.nextUuid
  }

  ghost function GrantError(db: Database, ctx: Context, union: ResourceSet): Option<StoreError> {
    if HasTaskLease(db, ctx.Task()) then
      var l := db.leases[TaskLease(db, ctx.Task())];
      if !l.state.LeaseActive? || l.expiresAt <= ctx.observedAt then Some(InvalidState)
      else if union.Keys != l.resources.Keys && l.slots != map[] then Some(InvalidState)
      else if exists i :: i in union && i !in l.resources && ResourceRef(ctx.workspace, i) !in db.resources
      then Some(NotFound)
      else None
    else if exists i :: i in union && ResourceRef(ctx.workspace, i) !in db.resources then Some(NotFound)
    else None
  }

  ghost function Grant(db: Database, ctx: Context, union: ResourceSet, expiresAt: Instant): Database {
    if HasTaskLease(db, ctx.Task()) then
      var b := TaskLease(db, ctx.Task());
      var l := db.leases[b];
      if union.Keys != l.resources.Keys || l.expiresAt != expiresAt then
        db.(leases := db.leases[b := l.(resources := union, version := l.version + 1, expiresAt := expiresAt)])
      else db
    else
      db.(leases := db.leases[db.nextUuid :=
            Lease(ctx.Task(), ctx.agent, LeaseActive, 1, expiresAt, false, union, map[])],
          nextUuid := db.nextUuid + 1)
  }

  /** An executing attempt takes a slot on every resource it starts from. */
  function BeginWrite(db: Database, ctx: Context, cmd: Command, batch: Uuid, requested: ResourceSet,
                      start: seq<Observation>): Database
    requires cmd.WritePrepare? && batch in db.leases
  {
    var a := db.nextUuid;
    var l := db.leases[batch];
    db.(attempts := db.attempts[a := WriteAttempt(ctx.Task(), a + 1, cmd.invocation, batch, cmd.operation,
                                                  start, Executing, cmd.attemptDeadline)],
        leases := db.leases[batch := l.(slots := l.slots + map i | i in requested :: a)],
        nextUuid := a + 2)
  }

  /** The reported observations in the order given, with the recorded generations. */
  function StartOf(reported: seq<Observation>, current: ObservationSet): (r: seq<Observation>)
    requires forall o :: o in reported ==> o.key.id in current
    ensures |r| == |reported|
  {
    seq(|reported|, n requires 0 <= n < |reported| => assert reported[n] in reported; current[reported[n].key.id])
  }

  lemma CanonicalKeys(workspace: Name, os: seq<Observation>)
    ensures Canonical(workspace, os).Ok? ==>
              var r := Canonical(workspace, os).value;
              && (forall o :: o in os ==> o.key.id in r && r[o.key.id] == o)
              && (forall i :: i in r ==> r[i] in os && r[i].key.id == i && r[i].key.workspace == workspace)
  {
    if os != [] {
      CanonicalKeys(workspace, os[..|os| - 1]);
      assert os == os[..|os| - 1] + [os[|os| - 1]];
    }
  }

  predicate SlotTaken(l: Lease, requested: ResourceSet) {
    exists i :: i in requested && i in l.slots
  }

  predicate InvocationUsed(attempts: map<Uuid, WriteAttempt>, t: TaskKey, invocation: Name) {
    exists a :: a in attempts && attempts[a].task == t && attempts[a].invocation == invocation
  }

  /** The write begins under the task's lease, new or grown. */
  ghost function GrantedWrite(db: Database, ctx: Context, cmd: Command, requested: ResourceSet, union: ResourceSet,
                              start: seq<Observation>): Outcome
    requires cmd.WritePrepare?
  {
    var t := ctx.Task();
    var e := GrantError(db, ctx, union);
    if e.Some? then Rejected(e.value)
    else
      var batch := GrantBatch(db, t);
      var granted := Grant(db, ctx, union, cmd.leaseExpiresAt);
      if SlotTaken(granted.leases[batch], requested) then Rejected(InvalidState)
      else if InvocationUsed(db.attempts, t, cmd.invocation) then Rejected(ConstraintViolation)
      else
        var keys := Keys(ctx.workspace, union) + Keys(ctx.workspace, requested);
        var revoked := Revoke(granted, keys, Some(t));
        Accepted(BeginWrite(revoked, ctx, cmd, batch, requested, start),
                 Ready(granted.nextUuid, granted.nextUuid + 1, batch))
  }

  ghost function DirectWrite(db: Database, ctx: Context, cmd: Command, reported: ObservationSet, union: ResourceSet): Outcome
    requires cmd.WritePrepare? && Canonical(ctx.workspace, cmd.current) == Ok(reported)
  {
    var t := ctx.Task();
    var requested := KeySet(reported);
    var current := CurrentObservations(db, ctx.workspace, requested);
    if current.Err? then Rejected(current.error)
    else if !SameStates(current.value, reported) || !HasCurrentEvidence(db, t, current.value, None) then
      Accepted(db, RereadRequired(if HasTaskLease(db, t) then [TaskLease(db, t)] else []))
    else
      CanonicalKeys(ctx.workspace, cmd.current);
      GrantedWrite(db, ctx, cmd, requested, union, StartOf(cmd.current, current.value))
  }

  ghost function PrepareWrite(db: Database, ctx: Context, cmd: Command): Outcome
    requires cmd.WritePrepare?
  {
    var e := OwnerError(db, ctx, true);
    if e.Some? then Rejected(e.value)
    else
      var settings := db.tasks[ctx.Task()].settings;
      if !WithinWindow(ctx.observedAt, cmd.requestExpiresAt, settings.offerTtl)
         || !WithinWindow(ctx.observedAt, cmd.leaseExpiresAt, settings.leaseExpiry)
         || cmd.attemptDeadline <= ctx.observedAt
         || cmd.invocation == BLANK
      then Rejected(InvalidInput)
      else
        var reported := Canonical(ctx.workspace, cmd.current);
        if reported.Err? then Rejected(reported.error)
        else if reported.value == map[] then Rejected(InvalidInput)
        else if ValidateOperationStart(cmd.operation, cmd.current).Err? then Rejected(InvalidInput)
        else
          var union := Union(db, ctx.Task(), KeySet(reported.value));
          if Contended(db, ctx, union) then JoinQueue(db, ctx, cmd, reported.value, union)
          else DirectWrite(db, ctx, cmd, reported.value, union)
  }

  // --------------------------------------------------------------- leases

  ghost function ActivateLease(db: Database, ctx: Context, cmd: Command): Outcome
    requires cmd.LeaseActivate?
  {
    var e := OwnerError(db, ctx, true);
    if e.Some? then Rejected(e.value)
    else
      var t := ctx.Task();
      if !WithinWindow(ctx.observedAt, cmd.leaseExpiresAt, db.tasks[t].settings.leaseExpiry) then Rejected(InvalidInput)
      else if cmd.batch !in db.requests || db.requests[cmd.batch].task != t then Rejected(NotFound)
      else
        var r := db.requests[cmd.batch];
        var refused := Accepted(db, ActivateResult(cmd.batch, false));
        if !r.state.Offered? || r.offer.None? || r.offer.value.id != cmd.offer || r.version != cmd.version then refused
        else
          var current := CurrentObservations(db, ctx.workspace, r.resources);
          if current.Err? then Rejected(current.error)
          else if !HasCurrentEvidence(db, t, current.value, Some(r.offer.value.offeredAt)) then refused
          else if AgentSlotOccupied(db, ctx.workspace, ctx.agent, None) then refused
          else if Conflict(db, t, r.resources) || HasTaskLease(db, t) then refused
          else if cmd.batch in db.leases then Rejected(ConstraintViolation)
          else Accepted(WithActivated(db, ctx, cmd), ActivateResult(cmd.batch, true))
  }

  ghost function WithActivated(db: Database, ctx: Context, cmd: Command): Database
    requires cmd.LeaseActivate? && cmd.batch in db.requests
  {
    var r := db.requests[cmd.batch];
    var revoked := Revoke(db, Keys(ctx.workspace, r.resources), Some(ctx.Task()));
    revoked.(
      leases := db.leases[cmd.batch :=
        Lease(ctx.Task(), ctx.agent, LeaseActive, r.version + 1, cmd.leaseExpiresAt, false, r.resources, map[])],
      requests := db.requests[cmd.batch := r.(state := Activated, version := r.version + 1)])
  }

  function DropLease(db: Database, b: Uuid): Database { db.(leases := db.leases - {b}) }

  function DrainLease(db: Database, b: Uuid): Database {
    if b in db.leases then db.(leases := db.leases[b := Drained(db.leases[b])]) else db
  }

  ghost function ReleaseLease(db: Database, ctx: Context, cmd: Command): Outcome
    requires cmd.LeaseRelease?
  {
    var e := OwnerError(db, ctx, false);
    if e.Some? then Rejected(e.value)
    else if !HasTaskLease(db, ctx.Task()) || TaskLease(db, ctx.Task()) != cmd.batch then Rejected(NotFound)
    else if db.leases[cmd.batch].slots == map[] then
      Accepted(Promote(DropLease(db, cmd.batch), ctx.observedAt), ReleaseResult(cmd.batch, true))
    else Accepted(DrainLease(db, cmd.batch), ReleaseResult(cmd.batch, false))
  }

  // ------------------------------------------------------ write completion

  /** The same resources in the same states. */
  predicate Unmoved(start: seq<Observation>, actual: ObservationSet) {
    && |start| == |actual|
    && forall o :: o in start ==> o.key.id in actual && SameState(o, actual[o.key.id])
  }

  function KeysOf(os: seq<Observation>): (r: set<ResourceKey>) { set o | o in os :: o.key }

  function Freed(leases: map<Uuid, Lease>, a: Uuid): map<Uuid, Lease> {
    map b | b in leases ::
      leases[b].(slots := map i | i in leases[b].slots && leases[b].slots[i] != a :: leases[b].slots[i])
  }

  /** The attempt reaches its final status and gives up its slots. */
  function Settle(db: Database, a: Uuid, status: WriteStatus): Database
    requires a in db.attempts
  {
    db.(attempts := db.attempts[a := db.attempts[a].(status := status)],
        leases := Freed(db.leases, a))
  }

  function WriteVerdict(attempt: WriteAttempt, cmd: Command, actual: ObservationSet, expected: ObservationSet)
    : WriteStatus
    requires cmd.WriteComplete?
  {
    if cmd.outcome.Success? && expected != map[]
       && ValidateOperationTransition(attempt.operation, attempt.start, cmd.expected, cmd.post).Ok?
    then WriteCompleted
    else if cmd.outcome.FailedKnown? && Unmoved(attempt.start, actual) then WriteFailed
    else Uncertain
  }

  /** What a verdict records: the new states as the writer's own evidence, nothing,
      or the loss of all evidence about what the write may have touched. */
  ghost function RecordVerdict(db: Database, t: TaskKey, attempt: WriteAttempt, verdict: WriteStatus, actual: ObservationSet)
    : Database
  {
    if verdict.WriteCompleted? then RecordOwnWrite(Sync(db, t.workspace, actual), t, Synced(db, actual))
    else if verdict.Uncertain? then Revoke(db, KeysOf(attempt.start), None)
    else db
  }

  predicate ReleaseDue(db: Database, batch: Uuid) {
    batch in db.leases && db.leases[batch].releasePending && db.leases[batch].slots == map[]
  }

  predicate FinishDue(db: Database, t: TaskKey) {
    t in db.tasks && db.tasks[t].status.Draining? && db.tasks[t].terminal.Some? && !Busy(db, t)
  }

  /** A draining task with nothing unresolved left reaches its terminal status. */
  ghost function FinishDraining(db: Database, t: TaskKey): Database {
    if FinishDue(db, t) then SetStatus(ReleaseTaskLeases(db, t), t, db.tasks[t].terminal.value) else db
  }

  ghost function CompleteWrite(db: Database, ctx: Context, cmd: Command): Outcome
    requires cmd.WriteComplete?
  {
    var e := OwnerError(db, ctx, false);
    var t := ctx.Task();
    if e.Some? then Rejected(e.value)
    else if cmd.attempt !in db.attempts || db.attempts[cmd.attempt].task != t then Rejected(NotFound)
    else
      var attempt := db.attempts[cmd.attempt];
      if attempt.invocation != cmd.invocation || attempt.permit != cmd.permit then Rejected(Ownership)
      else if !attempt.status.Executing? then Rejected(InvalidState)
      else
        var actual := Canonical(ctx.workspace, cmd.post);
        var expected := Canonical(ctx.workspace, cmd.expected);
        if actual.Err? then Rejected(actual.error)
        else if expected.Err? then Rejected(expected.error)
        else
          var verdict := WriteVerdict(attempt, cmd, actual.value, expected.value);
          var settled := Settle(RecordVerdict(db, t, attempt, verdict, actual.value), cmd.attempt, verdict);
          var response := WriteResult(cmd.attempt, verdict);
          var drop := !verdict.Uncertain? && ReleaseDue(settled, attempt.batch);
          var left :=
            if verdict.Uncertain? then DrainLease(settled, attempt.batch)
            else if drop then DropLease(settled, attempt.batch)
            else settled;
          var finished := FinishDraining(left, t);
          if drop || FinishDue(left, t) then Accepted(Promote(finished, ctx.observedAt), response)
          else Accepted(finished, response)
  }

  // -------------------------------------------------------------- wrapper

  ghost function Operate(db: Database, ctx: Context, cmd: Command): Outcome {
    match cmd
    case TaskStart(_, _, _, _) => StartTask(db, ctx, cmd)
    case TaskHeartbeat(_, _) => Heartbeat(db, ctx, cmd)
    case TaskEnd(_, _) => EndTask(db, ctx, cmd)
    case ReadStart(_, _, _) => StartRead(db, ctx, cmd)
    case ReadComplete(_, _, _, _, _, _, _) => CompleteRead(db, ctx, cmd)
    case WritePrepare(_, _, _, _, _, _) => PrepareWrite(db, ctx, cmd)
    case LeaseActivate(_, _, _, _) => ActivateLease(db, ctx, cmd)
    case LeaseRelease(_) => ReleaseLease(db, ctx, cmd)
    case WriteComplete(_, _, _, _, _, _, _) => CompleteWrite(db, ctx, cmd)
  }

  function ReceiptKeyOf(ctx: Context): ReceiptKey { ReceiptKey(ctx.workspace, ctx.agent, ctx.request) }

  /** One command: a recorded request id replays its answer or is refused; otherwise
      the sweeps run, then the command, and everything rolls back on an error. */
  ghost function Execute(db: Database, ctx: Context, cmd: Command): (Database, Result<Response, StoreError>) {
    if !ctx.Valid() then (db, Err(InvalidInput))
    else if ReceiptKeyOf(ctx) in db.receipts then
      var receipt := db.receipts[ReceiptKeyOf(ctx)];
      (db, if receipt.command == cmd then Ok(receipt.response) else Err(IdempotencyMismatch))
    else
      match Operate(Sweep(db, ctx.observedAt), ctx, cmd)
      case Rejected(error) => (db, Err(error))
      case Accepted(done, response) =>
        (done.(receipts := done.receipts[ReceiptKeyOf(ctx) := Receipt(cmd, response)]), Ok(response))
  }
}
