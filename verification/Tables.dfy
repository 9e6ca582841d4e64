/** The tables of the coordination store and the queries commands make of them
    (crates/stateful-store/src/schema_v2.rs, store_v2.rs). */
module Tables {
  import opened Basics
  import opened Resources
  import opened Operations

  // ----------------------------------------------------------------- rows

  datatype TaskStatus = Active | Draining | Completed | Failed | Cancelled {
    predicate IsTerminal() { Completed? || Failed? || Cancelled? }
  }

  datatype Settings = Settings(heartbeatInterval: nat, inactivityTimeout: nat, leaseExpiry: nat, offerTtl: nat) {
    predicate Valid() {
      && heartbeatInterval > 0 && inactivityTimeout > 0 && leaseExpiry > 0 && offerTtl > 0
      && heartbeatInterval <= inactivityTimeout / 3 < leaseExpiry
    }
  }

  datatype TaskKey = TaskKey(workspace: Name, task: Name)

  datatype Task = Task(agent: Name, status: TaskStatus, terminal: Option<TaskStatus>,
                       settings: Settings, expiresAt: Instant)

  datatype ResourceRef = ResourceRef(workspace: Name, id: ResourceId)

  datatype ResourceRow = ResourceRow(path: string, state: ObservedState, generation: nat)

  datatype EvidenceKey = EvidenceKey(evidence: Uuid, id: ResourceId)

  datatype EvidenceSource = FromRead(startedAt: Instant) | FromOwnWrite

  datatype Evidence = Evidence(task: TaskKey, source: EvidenceSource, observation: Observation, valid: bool)

  datatype IntentKey = IntentKey(task: TaskKey, id: ResourceId)

  datatype IntentStatus = Held | Revoked | Released

  datatype Intent = Intent(evidence: Uuid, status: IntentStatus, readStartedAt: Instant)

  datatype LeaseState = LeaseActive | LeaseDraining

  /** `slots` holds the attempt in flight on each busy resource. */
  datatype Lease = Lease(task: TaskKey, agent: Name, state: LeaseState, version: nat, expiresAt: Instant,
                         releasePending: bool, resources: ResourceSet, slots: map<ResourceId, Uuid>)

  datatype RequestState = Queued | Offered | Activated | Superseded | Expired | Withdrawn

  datatype Offer = Offer(id: Uuid, offeredAt: Instant, expiresAt: Instant)

  datatype Request = Request(task: TaskKey, agent: Name, state: RequestState, version: nat, sequence: nat,
                             offer: Option<Offer>, expiresAt: Instant, supersededBy: Option<Uuid>,
                             resources: ResourceSet) {
    predicate Pending() { state.Queued? || state.Offered? }
  }

  datatype ReadStatus = ReadStarted | ReadCompleted | ReadFailed

  type ObservationSet = map<ResourceId, Observation>

  datatype ReadAttempt = ReadAttempt(task: TaskKey, invocation: Name, started: ObservationSet,
                                     status: ReadStatus, startedAt: Instant)

  datatype WriteStatus = Executing | WriteCompleted | WriteFailed | Uncertain

  datatype WriteAttempt = WriteAttempt(task: TaskKey, permit: Uuid, invocation: Name, batch: Uuid,
                                       operation: Operation, start: seq<Observation>,
                                       status: WriteStatus, deadline: Instant)

  // ------------------------------------------------- commands and answers

  datatype Context = Context(request: Name, task: Name, agent: Name, workspace: Name, observedAt: Instant) {
    function Task(): TaskKey { TaskKey(workspace, task) }

    predicate Valid() { request != BLANK && task != BLANK && agent != BLANK && workspace != BLANK }
  }

  datatype EndKind = Finalize | Cancel {
    function Status(): TaskStatus { if Finalize? then Completed else Cancelled }
  }

  datatype WriteTerminal = Success | FailedKnown | UncertainOutcome

  /** A command kind together with its payload. */
  datatype Command =
    | TaskStart(nextAction: Name, settings: Settings, taskExpiresAt: Instant, processIdentity: Option<Name>)
    | TaskHeartbeat(nextAction: Name, taskExpiresAt: Instant)
    | TaskEnd(kind: EndKind, handoff: Option<Name>)
    | ReadStart(readId: Name, invocation: Name, observations: seq<Observation>)
    | ReadComplete(readId: Name, invocation: Name, observations: seq<Observation>,
                   terminalSuccess: bool, complete: bool, stable: bool, exact: bool)
    | WritePrepare(invocation: Name, operation: Operation, current: seq<Observation>,
                   requestExpiresAt: Instant, leaseExpiresAt: Instant, attemptDeadline: Instant)
    | LeaseActivate(batch: Uuid, offer: Uuid, version: nat, leaseExpiresAt: Instant)
    | LeaseRelease(batch: Uuid)
    | WriteComplete(attempt: Uuid, permit: Uuid, invocation: Name, outcome: WriteTerminal,
                    post: seq<Observation>, expected: seq<Observation>, message: Option<Name>)

  datatype Response =
    | TaskResult(task: Name, status: TaskStatus, draining: bool)
    | ReadResult(readId: Name, readStatus: ReadStatus, evidence: Option<Uuid>)
    | Ready(attempt: Uuid, permit: Uuid, batch: Uuid)
    | QueuedAs(batch: Uuid)
    | RereadRequired(batches: seq<Uuid>)
    | Denied
    | ActivateResult(batch: Uuid, active: bool)
    | ReleaseResult(batch: Uuid, released: bool)
    | WriteResult(attempt: Uuid, writeStatus: WriteStatus)

  datatype StoreError =
    | InvalidInput | InvalidState | NotFound | Ownership | IdempotencyMismatch | ConstraintViolation

  datatype ReceiptKey = ReceiptKey(workspace: Name, agent: Name, request: Name)

  datatype Receipt = Receipt(command: Command, response: Response)

  // ------------------------------------------------------------- database

  datatype Database = Database(
    tasks: map<TaskKey, Task>,
    resources: map<ResourceRef, ResourceRow>,
    evidence: map<EvidenceKey, Evidence>,
    intents: map<IntentKey, Intent>,
    leases: map<Uuid, Lease>,
    requests: map<Uuid, Request>,
    readAttempts: map<Name, ReadAttempt>,
    attempts: map<Uuid, WriteAttempt>,
    receipts: map<ReceiptKey, Receipt>,
    queueSequence: nat,
    nextUuid: Uuid)

  const EMPTY := Database(map[], map[], map[], map[], map[], map[], map[], map[], map[], 0, 0)

  /** A command either commits a new database and an answer or changes nothing. */
  datatype Outcome = Accepted(db: Database, response: Response) | Rejected(error: StoreError)

  // -------------------------------------------------------------- queries

  predicate HasTaskLease(db: Database, t: TaskKey) {
    exists b :: b in db.leases && db.leases[b].task == t
  }

  ghost function TaskLease(db: Database, t: TaskKey): (b: Uuid)
    requires HasTaskLease(db, t)
    ensures b in db.leases && db.leases[b].task == t
  {
    var b :| b in db.leases && db.leases[b].task == t;
    b
  }

  predicate HasPending(db: Database, t: TaskKey) {
    exists b :: b in db.requests && db.requests[b].task == t && db.requests[b].Pending()
  }

  ghost function PendingRequest(db: Database, t: TaskKey): (b: Uuid)
    requires HasPending(db, t)
    ensures b in db.requests && db.requests[b].task == t && db.requests[b].Pending()
  {
    var b :| b in db.requests && db.requests[b].task == t && db.requests[b].Pending();
    b
  }

  /** A lease of the agent, not counting those of one task. */
  predicate AgentSlotOccupied(db: Database, workspace: Name, agent: Name, excluding: Option<TaskKey>) {
    exists b :: b in db.leases && db.leases[b].task.workspace == workspace && db.leases[b].agent == agent
             && Some(db.leases[b].task) != excluding
  }

  predicate AgentHasOffer(db: Database, workspace: Name, agent: Name) {
    exists b :: b in db.requests && db.requests[b].state.Offered?
             && db.requests[b].task.workspace == workspace && db.requests[b].agent == agent
  }

  predicate LeaseConflict(db: Database, t: TaskKey, rs: ResourceSet) {
    exists b :: b in db.leases && db.leases[b].task != t
             && Clash(t.workspace, rs, db.leases[b].task.workspace, db.leases[b].resources)
  }

  predicate OfferConflict(db: Database, t: TaskKey, rs: ResourceSet) {
    exists b :: b in db.requests && db.requests[b].state.Offered? && db.requests[b].task != t
             && Clash(t.workspace, rs, db.requests[b].task.workspace, db.requests[b].resources)
  }

  predicate QueueConflict(db: Database, t: TaskKey, rs: ResourceSet) {
    exists b :: b in db.requests && db.requests[b].state.Queued? && db.requests[b].task != t
             && Clash(t.workspace, rs, db.requests[b].task.workspace, db.requests[b].resources)
  }

  /** A lease or a live offer of another task holds an overlapping resource. */
  predicate Conflict(db: Database, t: TaskKey, rs: ResourceSet) {
    LeaseConflict(db, t, rs) || OfferConflict(db, t, rs)
  }

  /** A write of the task is executing or unresolved under a live lease. */
  predicate Busy(db: Database, t: TaskKey) {
    exists a :: a in db.attempts && db.attempts[a].task == t
             && (db.attempts[a].status.Executing? || db.attempts[a].status.Uncertain?)
             && db.attempts[a].batch in db.leases
  }

  function Key(workspace: Name, rs: ResourceSet, i: ResourceId): ResourceKey
    requires i in rs
  {
    ResourceKey(workspace, i, rs[i])
  }

  function Keys(workspace: Name, rs: ResourceSet): (r: set<ResourceKey>) {
    set i | i in rs :: ResourceKey(workspace, i, rs[i])
  }

  predicate PeerWriteInFlight(db: Database, t: TaskKey, key: ResourceKey) {
    exists b, i :: b in db.leases && db.leases[b].task != t
                && i in db.leases[b].slots && i in db.leases[b].resources
                && Overlap(key, Key(db.leases[b].task.workspace, db.leases[b].resources, i))
  }

  // --------------------------------------------------------- observations

  function KeySet(os: ObservationSet): (r: ResourceSet)
    ensures r.Keys == os.Keys
  {
    map i | i in os :: os[i].key.path
  }

  /** The observations by identity; a foreign workspace, a wrong kind or a
      repeated identity is refused. */
  function Canonical(workspace: Name, os: seq<Observation>): (r: Result<ObservationSet, StoreError>)
  {
    if os == [] then Ok(map[])
    else
      var front :- Canonical(workspace, os[..|os| - 1]);
      var last := os[|os| - 1];
      if !last.KindMatches() || last.key.workspace != workspace then Err(InvalidInput)
      else if last.key.id in front then Err(InvalidInput)
      else Ok(front[last.key.id := last])
  }

  predicate SameStates(left: ObservationSet, right: ObservationSet) {
    left.Keys == right.Keys && forall i :: i in left ==> SameState(left[i], right[i])
  }

  /** The recorded states of the resources, under the paths asked for. */
  function CurrentObservations(db: Database, workspace: Name, rs: ResourceSet)
    : (r: Result<ObservationSet, StoreError>)
    ensures r.Ok? ==> r.value.Keys == rs.Keys
  {
    if exists i :: i in rs && ResourceRef(workspace, i) !in db.resources then Err(NotFound)
    else
      Ok(map i | i in rs ::
           var row := db.resources[ResourceRef(workspace, i)];
           Observation(ResourceKey(workspace, i, rs[i]), row.state, row.generation))
  }

  /** Valid evidence for one observation; with `since`, from a read begun then or later. */
  predicate HasEvidence(db: Database, t: TaskKey, o: Observation, since: Option<Instant>) {
    exists e :: e in db.evidence && db.evidence[e].task == t && db.evidence[e].valid
             && e.id == o.key.id && db.evidence[e].observation == o
             && (since.None? || (db.evidence[e].source.FromRead? && db.evidence[e].source.startedAt >= since.value))
  }

  predicate HasCurrentEvidence(db: Database, t: TaskKey, os: ObservationSet, since: Option<Instant>) {
    forall i :: i in os ==> HasEvidence(db, t, os[i], since)
  }

  /** Evidence, valid or not, of the same state at the same path. */
  predicate HasHistory(db: Database, t: TaskKey, o: Observation) {
    exists e :: e in db.evidence && db.evidence[e].task == t
             && e.id == o.key.id && SameState(db.evidence[e].observation, o)
  }

  predicate HasHistoricalEvidence(db: Database, t: TaskKey, os: ObservationSet) {
    forall i :: i in os ==> HasHistory(db, t, os[i])
  }
}
