/** The store itself: the tables as mutable fields and the statements and loops that
    change them (crates/stateful-store/src/store_v2.rs). Every method is proved to do
    what the closed-form specification says. */
module Stores {
  import opened Basics
  import opened Resources
  import opened Operations
  import opened Tables
  import opened Sweeps
  import opened ReadEvidence
  import Commands
  import opened Invariants
  import opened SweepProofs
  import opened EvidenceProofs
  import opened Safety
  import opened StoreSteps
  import ReadAnswers
  import PrepareEffects
  import WriteAnswers
  import RequestLives
  import Runs

  /** The method did what the outcome says; after an error the tables are about to
      be rolled back. */
  ghost predicate Carried(outcome: Outcome, db: Database, r: Result<Response, StoreError>) {
    match outcome
    case Accepted(done, response) => r == Ok(response) && db == done
    case Rejected(error) => r == Err(error)
  }

  /** The answers a client builds on are true: a read that counts is one of what it started
      from, a queued task waits for all it reported, and a write is completed or failed
      exactly if it did or did not do what was asked. */
  ghost predicate Truthful(d: Database, e: Database, ctx: Context, cmd: Command, r: Result<Response, StoreError>) {
    if cmd.ReadComplete? then
      r == Ok(ReadResult(cmd.readId, ReadCompleted, Some(d.nextUuid))) <==> ReadAnswers.Counts(d, ctx, cmd)
    else if cmd.WritePrepare? then
      r.Ok? && r.value.QueuedAs? ==> PrepareEffects.CoveredInQueue(e, ctx.Task(), r.value.batch, cmd.current)
    else if cmd.WriteComplete? then
      && (r == Ok(WriteResult(cmd.attempt, WriteCompleted)) <==> WriteAnswers.Completes(d, ctx, cmd))
      && (r == Ok(WriteResult(cmd.attempt, WriteFailed)) <==> WriteAnswers.Fails(d, ctx, cmd))
    else true
  }

  lemma CarriedTruthful(d: Database, e: Database, ctx: Context, cmd: Command, r: Result<Response, StoreError>)
    requires Inv(d) && Carried(Commands.Operate(d, ctx, cmd), e, r)
    ensures Truthful(d, e, ctx, cmd, r)
  {
    hide Inv, Commands.CompleteRead, Commands.PrepareWrite, Commands.CompleteWrite, ReadAnswers.Counts;
    hide PrepareEffects.CoveredInQueue, WriteAnswers.Completes, WriteAnswers.Fails;
    if cmd.ReadComplete? {
      ReadAnswers.CountsMeans(d, ctx, cmd);
    } else if cmd.WritePrepare? {
      PrepareEffects.PreparedCovers(d, ctx, cmd);
    } else if cmd.WriteComplete? {
      WriteAnswers.VerdictsMean(d, ctx, cmd);
    }
  }

  class Store {
    var tasks: map<TaskKey, Task>
    var resources: map<ResourceRef, ResourceRow>
    var evidence: map<EvidenceKey, Evidence>
    var intents: map<IntentKey, Intent>
    var leases: map<Uuid, Lease>
    var requests: map<Uuid, Request>
    var readAttempts: map<Name, ReadAttempt>
    var attempts: map<Uuid, WriteAttempt>
    var receipts: map<ReceiptKey, Receipt>
    var queueSequence: nat
    var nextUuid: Uuid

    /** The tables as one value; also the snapshot a transaction rolls back to. */
    function Db(): Database
      reads this
    {
      Database(tasks, resources, evidence, intents, leases, requests, readAttempts, attempts, receipts, queueSequence, nextUuid)
    }

    ghost predicate Valid()
      reads this
    {
      Inv(Db()) && Conserved(Db())
    }

    constructor ()
      ensures Db() == EMPTY && Valid()
    {
      tasks, resources, evidence, intents, leases := map[], map[], map[], map[], map[];
      requests, readAttempts, attempts, receipts := map[], map[], map[], map[];
      queueSequence, nextUuid := 0, 0;
      new;
      Runs.EmptySafe();
    }

    method Restore(db: Database)
      modifies this
      ensures Db() == db
    {
      tasks, resources, evidence, intents, leases := db.tasks, db.resources, db.evidence, db.intents, db.leases;
      requests, readAttempts, attempts, receipts := db.requests, db.readAttempts, db.attempts, db.receipts;
      queueSequence, nextUuid := db.queueSequence, db.nextUuid;
    }

    // -------------------------------------------------------- revocation

    /** The rows of valid evidence that overlap the key. */
    method OverlappingEvidence(key: ResourceKey, exclude: Option<TaskKey>) returns (hit: set<EvidenceKey>)
      ensures HitRows(Db(), {key}, exclude, hit)
    {
      hide Overlap;
      hit := {};
      var rows := evidence.Keys;
      while rows != {}
        invariant rows <= evidence.Keys
        invariant forall e :: e in hit <==> e in evidence && e !in rows && Hit(evidence[e], {key}, exclude)
        decreases rows
      {
        var e :| e in rows;
        rows := rows - {e};
        if evidence[e].valid && Some(evidence[e].task) != exclude && Overlap(key, evidence[e].observation.key) {
          assert key in {key};
          hit := hit + {e};
        }
      }
    }

    method RevokeRow(e: EvidenceKey)
      modifies `intents, `evidence
      ensures Db() == RevokeRows(old(Db()), {e})
    {
      intents := map i | i in intents ::
        if intents[i].status.Held? && EvidenceKey(intents[i].evidence, i.id) == e
        then intents[i].(status := Revoked) else intents[i];
      evidence := map k | k in evidence :: if k == e then evidence[k].(valid := false) else evidence[k];
    }

    method RevokeOverlapping(key: ResourceKey, exclude: Option<TaskKey>)
      modifies `intents, `evidence
      ensures Db() == Revoke(old(Db()), {key}, exclude)
    {
      hide Hit, HitRows, RevokeRows, Revoke;
      ghost var start := Db();
      var hit := OverlappingEvidence(key, exclude);
      var todo := hit;
      RevokeNoRows(start);
      assert hit - todo == {};
      while todo != {}
        invariant todo <= hit
        invariant Db() == RevokeRows(start, hit - todo)
        decreases todo
      {
        var e :| e in todo;
        RevokeMoreRows(start, hit - todo, {e});
        assert hit - (todo - {e}) == hit - todo + {e};
        todo := todo - {e};
        RevokeRow(e);
      }
      assert hit - todo == hit;
      RevokeAllRows(start, {key}, exclude, hit);
    }

    /** One key after another. */
    method RevokeEach(keys: set<ResourceKey>, exclude: Option<TaskKey>)
      modifies `intents, `evidence
      ensures Db() == Revoke(old(Db()), keys, exclude)
    {
      hide Revoke;
      ghost var start := Db();
      var todo := keys;
      RevokeNothing(start, exclude);
      assert keys - todo == {};
      while todo != {}
        invariant todo <= keys
        invariant Db() == Revoke(start, keys - todo, exclude)
        decreases todo
      {
        var k :| k in todo;
        RevokeTwice(start, keys - todo, {k}, exclude);
        assert keys - (todo - {k}) == keys - todo + {k};
        todo := todo - {k};
        RevokeOverlapping(k, exclude);
      }
      assert keys - todo == keys;
    }

    // ------------------------------------------------------------ expiry

    method ExpireOffers(now: Instant)
      modifies `requests
      ensures Db() == Sweeps.ExpireOffers(old(Db()), now)
    {
      requests := map b | b in requests ::
        var r := requests[b];
        if r.state.Offered? && r.offer.Some? && r.offer.value.expiresAt <= now then r.(state := Expired) else r;
    }

    method ExpireTask(t: TaskKey)
      requires t in tasks
      modifies `tasks, `requests, `leases
      ensures Db() == StoreSteps.ExpireTask(old(Db()), t, Busy(old(Db()), t))
    {
      hide Busy, Commands.Undone, AllDrained, AllDropped;
      var busy := Busy(Db(), t);
      var task := tasks[t].(status := if busy then Draining else Failed, terminal := Some(Failed));
      tasks, requests, leases :=
        tasks[t := task], Commands.Undone(requests, t), if busy then AllDrained(leases, t) else AllDropped(leases, t);
    }

    method ExpireDueTasks(now: Instant)
      requires AttemptsOwned(Db())
      modifies `tasks, `requests, `leases
      ensures Db() == ExpireTasks(old(Db()), now)
    {
      hide Busy, ExpireSome, StoreSteps.ExpireTask, ExpireTasks, AttemptsOwned;
      ghost var start := Db();
      var due := set t | t in tasks && tasks[t].status.Active? && tasks[t].expiresAt <= now;
      var todo := due;
      ExpireNone(start);
      assert due - todo == {};
      while todo != {}
        invariant todo <= due
        invariant Db() == ExpireSome(start, due - todo)
        decreases todo
      {
        var t :| t in todo;
        StillBusy(start, due - todo, t);
        ExpireNext(start, due - todo, t);
        assert due - (todo - {t}) == due - todo + {t};
        todo := todo - {t};
        ExpireTask(t);
      }
      assert due - todo == due;
      ExpireAll(start, due, now);
    }

    method ExpireDueLeases(now: Instant)
      modifies `leases
      ensures Db() == ExpireLeases(old(Db()), now)
    {
      ghost var start := leases;
      var due := set b | b in leases && LeaseDue(leases[b], now);
      var todo := due;
      assert ExpireSomeLeases(start, {}) == start;
      while todo != {}
        invariant todo <= due
        invariant leases == ExpireSomeLeases(start, due - todo)
        decreases todo
      {
        var b :| b in todo;
        todo := todo - {b};
        if leases[b].slots == map[] {
          leases := leases - {b};
        } else {
          leases := leases[b := Drained(leases[b])];
        }
      }
      assert due - todo == due;
    }

    method ExpireTasksAndLeases(now: Instant)
      requires Inv(Db())
      modifies `tasks, `requests, `leases
      ensures Db() == Sweeps.ExpireTasksAndLeases(old(Db()), now)
      ensures Inv(Db())
    {
      ExpiryKeeps(Db(), now);
      Parts(Db());
      hide Inv, ExpireTasks, ExpireLeases;
      ExpireDueTasks(now);
      ExpireDueLeases(now);
    }

    // --------------------------------------------------------- promotion

    method FirstInLine(waiting: set<Uuid>) returns (first: Uuid)
      requires waiting != {} && waiting <= requests.Keys
      ensures first in waiting
      ensures forall b :: b in waiting ==> requests[first].sequence <= requests[b].sequence
    {
      first :| first in waiting;
      var todo := waiting;
      while todo != {}
        invariant todo <= waiting && first in waiting
        invariant forall b :: b in waiting - todo ==> requests[first].sequence <= requests[b].sequence
        decreases todo
      {
        var b :| b in todo;
        todo := todo - {b};
        if requests[b].sequence < requests[first].sequence { first := b; }
      }
    }

    /** The waiting requests, longest waiting first. */
    method QueueInOrder() returns (queued: seq<Uuid>)
      requires SequencesDistinct(Db())
      ensures forall b :: b in queued <==> b in requests && requests[b].state.Queued?
      ensures forall i, j :: 0 <= i < j < |queued| ==> requests[queued[i]].sequence < requests[queued[j]].sequence
    {
      queued := [];
      var waiting := set b | b in requests && requests[b].state.Queued?;
      while waiting != {}
        invariant waiting <= requests.Keys
        invariant forall b :: b in queued || b in waiting <==> b in requests && requests[b].state.Queued?
        invariant forall b :: b in queued ==> b !in waiting
        invariant forall i, j :: 0 <= i < j < |queued| ==> requests[queued[i]].sequence < requests[queued[j]].sequence
        invariant forall b, c :: b in queued && c in waiting ==> requests[b].sequence < requests[c].sequence
        decreases waiting
      {
        var first := FirstInLine(waiting);
        waiting := waiting - {first};
        queued := queued + [first];
      }
    }

    /** One waiting request is closed, left waiting or made an offer. */
    method PromoteWaiter(b: Uuid, now: Instant, blocked: set<ResourceKey>) returns (stays: bool)
      requires b in requests && requests[b].state.Queued? && requests[b].task in tasks && 0 < requests[b].sequence
      requires BlockedKeys(Db(), requests[b].sequence - 1, blocked)
      modifies `requests, `nextUuid
      ensures Db() == PromoteOne(old(Db()), b, now)
      ensures requests.Keys == old(requests).Keys && forall q :: q in requests && q != b ==> requests[q] == old(requests)[q]
      ensures if stays then Db() == old(Db()) else !requests[b].state.Queued?
    {
      var r := requests[b];
      var task := tasks[r.task];
      if !task.status.Active? || r.expiresAt <= now {
        requests := requests[b := r.(state := Expired)];
        return false;
      }
      BlockedListExact(Db(), b, blocked);
      var earlierOverlap := OverlapsBlocked(blocked, r.task.workspace, r.resources);
      hide EarlierWaiter, OverlapsBlocked, BlockedKeys, AgentSlotOccupied, HasTaskLease, AgentHasOffer, Conflict;
      var db := Db();
      if || earlierOverlap || AgentSlotOccupied(db, r.task.workspace, r.agent, None) || HasTaskLease(db, r.task)
         || AgentHasOffer(db, r.task.workspace, r.agent) || Conflict(db, r.task, r.resources) {
        return true;
      }
      var offer := Offer(nextUuid, now, Min(now + task.settings.offerTtl, r.expiresAt));
      requests := requests[b := r.(state := Offered, version := r.version + 1, offer := Some(offer))];
      nextUuid := nextUuid + 1;
      return false;
    }

    method PromoteWaiters(now: Instant)
      requires Inv(Db())
      modifies `requests, `nextUuid
      ensures Db() == Promote(old(Db()), now)
      ensures Inv(Db()) && Conserved(Db())
    {
      hide Inv, Conserved, BlockedKeys, PromoteThrough, Sweeps.ExpireOffers;
      ghost var start := Db();
      PromoteConserves(start, now);
      PromoteStart(start, now);
      ExpireOffers(now);
      var queued := QueueInOrder();
      var blocked: set<ResourceKey> := {};
      ghost var passed := 0;
      assert queued[0..] == queued;
      assert WaitingFrom(start, passed, queued[0..]);
      hide WaitingFrom, SequencesDistinct;
      for k := 0 to |queued|
        invariant 0 <= passed <= start.queueSequence
        invariant Db() == PromoteThrough(start, passed, now)
        invariant WaitingFrom(start, passed, queued[k..])
        invariant BlockedKeys(Db(), passed, blocked)
      {
        assert queued[k..][0] == queued[k] && queued[k..][1..] == queued[k + 1..];
        passed, blocked := PromoteNext(queued[k], now, blocked, start, passed, queued[k..]);
      }
      assert queued[|queued|..] == [];
      EndOfLine(start, passed, now);
    }

    /** The body of the loop: the next in line is dealt with and, if still waiting,
        blocks what it waits for. */
    method PromoteNext(b: Uuid, now: Instant, blocked: set<ResourceKey>, ghost start: Database, ghost passed: nat,
                       ghost line: seq<Uuid>)
      returns (ghost number: nat, more: set<ResourceKey>)
      requires Inv(start) && line != [] && line[0] == b && WaitingFrom(start, passed, line)
      requires Db() == PromoteThrough(start, passed, now) && BlockedKeys(Db(), passed, blocked)
      modifies `requests, `nextUuid
      ensures passed < number <= start.queueSequence
      ensures Db() == PromoteThrough(start, number, now)
      ensures WaitingFrom(start, number, line[1..])
      ensures BlockedKeys(Db(), number, more)
    {
      hide Inv, BlockedKeys, PromoteOne, NobodyBetween, PromoteThrough, WaitingFrom, SequencesDistinct;
      NextInLine(start, passed, line, now);
      number := start.requests[b].sequence;
      BlockedKeysAcrossGap(Db(), passed, number - 1, blocked);
      ghost var before := Db();
      var stays := PromoteWaiter(b, now, blocked);
      if stays {
        BlockedKeysStayed(before, b, number - 1, blocked);
        more := blocked + Keys(requests[b].task.workspace, requests[b].resources);
      } else {
        BlockedKeysLeft(before, Db(), b, number - 1, blocked);
        more := blocked;
      }
    }

    // -------------------------------------------------------- projection

    method SyncObservation(o: Observation)
      modifies `resources, `intents, `evidence
      ensures Db() == SyncOne(old(Db()), o)
    {
      hide Revoke;
      var ref := ResourceRef(o.key.workspace, o.key.id);
      if ref in resources && resources[ref].state == o.observed {
        assert resources == resources[ref := resources[ref]];
      } else {
        var row := if ref in resources
                   then resources[ref].(state := o.observed, generation := resources[ref].generation + 1)
                   else ResourceRow(o.key.path, o.observed, 1);
        RevokeOverlapping(o.key, None);
        resources := resources[ref := row];
      }
    }

    /** Records the reported states, one after another; a foreign workspace, a wrong
        kind or a repeated identity fails the command. */
    method SyncObservations(workspace: Name, os: seq<Observation>) returns (r: Result<ObservationSet, StoreError>)
      modifies `resources, `intents, `evidence
      ensures match Canonical(workspace, os)
              case Ok(canonical) => r == Ok(Synced(old(Db()), canonical)) && Db() == Sync(old(Db()), workspace, canonical)
              case Err(error) => r == Err(error)
    {
      hide Sync, SyncOne, NextRow;
      ghost var start := Db();
      var seen: ObservationSet := map[];
      var synced: ObservationSet := map[];
      SyncNothing(start, workspace);
      for n := 0 to |os|
        invariant Canonical(workspace, os[..n]) == Ok(seen)
        invariant Db() == Sync(start, workspace, seen)
        invariant synced == Synced(start, seen)
      {
        var o := os[n];
        assert os[..n + 1][..n] == os[..n] && os[..n + 1][n] == o;
        if !o.KindMatches() || o.key.workspace != workspace || o.key.id in seen {
          CanonicalFails(workspace, os, n + 1);
          return Err(InvalidInput);
        }
        SyncNext(start, workspace, seen, o);
        SyncObservation(o);
        ghost var more := seen[o.key.id := o];
        assert Synced(start, more) == synced[o.key.id := o.(generation := NextRow(start, o).generation)];
        SyncedRow(start, workspace, more, o);
        seen := seen[o.key.id := o];
        synced := synced[o.key.id := o.(generation := resources[ResourceRef(workspace, o.key.id)].generation)];
      }
      assert os[..|os|] == os;
      return Ok(synced);
    }

    // ---------------------------------------------------------- evidence

    method InsertEvidence(id: Uuid, t: TaskKey, i: ResourceId, o: Observation, startedAt: Instant)
      modifies `evidence, `intents
      ensures Db() == StoreSteps.InsertEvidence(old(Db()), id, t, i, o, startedAt)
    {
      var valid := ReadCounts(Db(), t, o, startedAt);
      var moves := IntentMoves(Db(), t, o, startedAt);
      hide ReadCounts, IntentMoves;
      evidence, intents :=
        evidence[EvidenceKey(id, i) := Evidence(t, FromRead(startedAt), o, valid)],
        if moves then intents[IntentKey(t, i) := Intent(id, Held, startedAt)] else intents;
    }

    method RecordRead(t: TaskKey, os: ObservationSet, startedAt: Instant)
      requires forall i :: i in os ==> os[i].key.id == i
      modifies `evidence, `intents, `nextUuid
      ensures Db() == ReadEvidence.RecordRead(old(Db()), t, os, startedAt)
    {
      hide RecordedSome, StoreSteps.InsertEvidence, ReadEvidence.RecordRead;
      ghost var start := Db();
      var id := nextUuid;
      var todo := os.Keys;
      RecordedNone(start, id, t, os, startedAt);
      assert os.Keys - todo == {};
      while todo != {}
        invariant todo <= os.Keys
        invariant RecordedSome(start, Db(), id, t, os, startedAt, os.Keys - todo) && nextUuid == id
        decreases todo
      {
        var i :| i in todo;
        RecordedNext(start, Db(), id, t, os, startedAt, os.Keys - todo, i);
        assert os.Keys - (todo - {i}) == os.Keys - todo + {i};
        InsertEvidence(id, t, i, os[i], startedAt);
        todo := todo - {i};
      }
      assert os.Keys - todo == os.Keys;
      RecordedAll(start, Db(), t, os, startedAt);
      nextUuid := nextUuid + 1;
    }

    /** The writer comes to know every state it left, row by row under one new id. */
    method RecordOwnWrite(t: TaskKey, os: ObservationSet)
      modifies `evidence, `nextUuid
      ensures Db() == ReadEvidence.RecordOwnWrite(old(Db()), t, os)
      ensures OwnWriteKnown(old(Db()), Db(), t, os)
    {
      ghost var start := Db();
      OwnWriteRecorded(start, t, os);
      hide FileUnder, OwnWriteKnown, RowsAdded;
      var id := nextUuid;
      var todo := os.Keys;
      assert os.Keys - todo == {};
      NoRowsAdded(evidence, id, OwnRows(t, os));
      while todo != {}
        invariant todo <= os.Keys && nextUuid == id
        invariant RowsAdded(start.evidence, evidence, id, os.Keys - todo, OwnRows(t, os))
        decreases todo
      {
        var i :| i in todo;
        RowAdded(start.evidence, evidence, id, os.Keys - todo, OwnRows(t, os), i);
        assert os.Keys - (todo - {i}) == os.Keys - todo + {i};
        evidence := evidence[EvidenceKey(id, i) := Evidence(t, FromOwnWrite, os[i], true)];
        todo := todo - {i};
      }
      assert os.Keys - todo == os.Keys;
      AllRowsAdded(start.evidence, evidence, id, OwnRows(t, os));
      nextUuid := nextUuid + 1;
    }

    // ------------------------------------------------------------- tasks

    method StartTask(ctx: Context, cmd: Command) returns (r: Result<Response, StoreError>)
      requires cmd.TaskStart?
      modifies `tasks
      ensures Carried(Commands.StartTask(old(Db()), ctx, cmd), Db(), r)
    {
      if cmd.nextAction == BLANK || !cmd.settings.Valid()
         || !Commands.WithinWindow(ctx.observedAt, cmd.taskExpiresAt, cmd.settings.inactivityTimeout) {
        return Err(InvalidInput);
      }
      var t := ctx.Task();
      if t in tasks {
        if tasks[t].agent != ctx.agent { return Err(Ownership); }
        return Ok(TaskResult(ctx.task, tasks[t].status, tasks[t].status.Draining?));
      }
      tasks := tasks[t := Task(ctx.agent, Active, None, cmd.settings, cmd.taskExpiresAt)];
      if cmd.processIdentity == Some(BLANK) { return Err(InvalidInput); }
      return Ok(TaskResult(ctx.task, Active, false));
    }

    method Heartbeat(ctx: Context, cmd: Command) returns (r: Result<Response, StoreError>)
      requires cmd.TaskHeartbeat?
      modifies `tasks
      ensures Carried(Commands.Heartbeat(old(Db()), ctx, cmd), Db(), r)
    {
      var e := Commands.OwnerError(Db(), ctx, true);
      if e.Some? { return Err(e.value); }
      var t := ctx.Task();
      if !Commands.WithinWindow(ctx.observedAt, cmd.taskExpiresAt, tasks[t].settings.inactivityTimeout)
         || cmd.nextAction == BLANK {
        return Err(InvalidInput);
      }
      tasks := tasks[t := tasks[t].(expiresAt := cmd.taskExpiresAt)];
      return Ok(TaskResult(ctx.task, tasks[t].status, tasks[t].status.Draining?));
    }

    method CloseTask(t: TaskKey, terminal: TaskStatus)
      requires t in tasks
      modifies `tasks, `intents, `evidence, `requests
      ensures Db() == Commands.CloseTask(old(Db()), t, terminal)
      ensures GivenUp(old(Db()), Db(), t)
    {
      ClosedGivesUp(Db(), t, terminal);
      hide GivenUp;
      hide Commands.ReleasedIntents, Commands.LapsedEvidence, Commands.Undone;
      tasks, intents, evidence, requests :=
        tasks[t := tasks[t].(status := Draining, terminal := Some(terminal))],
        Commands.ReleasedIntents(intents, t), Commands.LapsedEvidence(evidence, t), Commands.Undone(requests, t);
    }

    method ReleaseTaskLeases(t: TaskKey)
      modifies `leases
      ensures Db() == Commands.ReleaseTaskLeases(old(Db()), t)
    {
      leases := map b | b in leases && leases[b].task != t :: leases[b];
    }

    method DrainTaskLeases(t: TaskKey)
      modifies `leases
      ensures Db() == Commands.DrainTaskLeases(old(Db()), t)
    {
      leases := map b | b in leases :: if leases[b].task == t then Drained(leases[b]) else leases[b];
    }

    method SetStatus(t: TaskKey, status: TaskStatus)
      requires t in tasks
      modifies `tasks
      ensures Db() == Commands.SetStatus(old(Db()), t, status)
    {
      tasks := tasks[t := tasks[t].(status := status)];
    }

    method EndTask(ctx: Context, cmd: Command) returns (r: Result<Response, StoreError>)
      requires cmd.TaskEnd? && Inv(Db())
      modifies this
      ensures Carried(Commands.EndTask(old(Db()), ctx, cmd), Db(), r)
    {
      hide Inv, Conserved, Commands.CloseTask, Commands.ReleaseTaskLeases, Commands.DrainTaskLeases, Promote, Busy;
      ghost var start := Db();
      var e := Commands.OwnerError(Db(), ctx, false);
      if e.Some? { return Err(e.value); }
      var t := ctx.Task();
      if tasks[t].status.IsTerminal() { return Ok(TaskResult(ctx.task, tasks[t].status, false)); }
      var terminal := cmd.kind.Status();
      SameBusy(start, t, terminal);
      CloseTask(t, terminal);
      if Busy(Db(), t) {
        DrainTaskLeases(t);
        return Ok(TaskResult(ctx.task, Draining, true));
      }
      EndIdleKeeps(start, t, terminal);
      ReleaseTaskLeases(t);
      SetStatus(t, terminal);
      PromoteWaiters(ctx.observedAt);
      return Ok(TaskResult(ctx.task, terminal, false));
    }

    // ------------------------------------------------------------- reads

    method StartRead(ctx: Context, cmd: Command) returns (r: Result<Response, StoreError>)
      requires cmd.ReadStart?
      modifies this
      ensures Carried(Commands.StartRead(old(Db()), ctx, cmd), Db(), r)
    {
      hide Sync, Canonical;
      var e := Commands.OwnerError(Db(), ctx, true);
      if e.Some? { return Err(e.value); }
      if cmd.readId == BLANK || cmd.invocation == BLANK { return Err(InvalidInput); }
      var synced := SyncObservations(ctx.workspace, cmd.observations);
      if synced.Err? { return Err(synced.error); }
      SyncedEmpty(old(Db()), Canonical(ctx.workspace, cmd.observations).value);
      hide Synced;
      if synced.value == map[] { return Err(InvalidInput); }
      if cmd.readId in readAttempts { return Err(InvalidState); }
      var t := ctx.Task();
      if exists i :: i in readAttempts && readAttempts[i].task == t && readAttempts[i].invocation == cmd.invocation {
        return Err(ConstraintViolation);
      }
      readAttempts := readAttempts[cmd.readId := ReadAttempt(t, cmd.invocation, synced.value, ReadStarted, ctx.observedAt)];
      return Ok(ReadResult(cmd.readId, ReadStarted, None));
    }

    method FinishRead(readId: Name, status: ReadStatus)
      requires readId in readAttempts
      modifies `readAttempts
      ensures Db() == Commands.FinishRead(old(Db()), readId, status)
    {
      readAttempts := readAttempts[readId := readAttempts[readId].(status := status)];
    }

    method CompleteRead(ctx: Context, cmd: Command) returns (r: Result<Response, StoreError>)
      requires cmd.ReadComplete?
      modifies this
      ensures Carried(Commands.CompleteRead(old(Db()), ctx, cmd), Db(), r)
      ensures r == Ok(ReadResult(cmd.readId, ReadCompleted, Some(old(nextUuid)))) <==> ReadAnswers.Counts(old(Db()), ctx, cmd)
    {
      ReadAnswers.CountsMeans(Db(), ctx, cmd);
      hide ReadAnswers.Counts, Canonical, CurrentObservations, SameStates, ReadEvidence.RecordRead, Commands.FinishRead;
      var e := Commands.OwnerError(Db(), ctx, true);
      if e.Some? { return Err(e.value); }
      if cmd.readId !in readAttempts || readAttempts[cmd.readId].task != ctx.Task() { return Err(NotFound); }
      var read := readAttempts[cmd.readId];
      if read.invocation != cmd.invocation { return Err(Ownership); }
      if !read.status.ReadStarted? { return Err(InvalidState); }
      if !(cmd.terminalSuccess && cmd.complete && cmd.stable && cmd.exact) {
        FinishRead(cmd.readId, ReadFailed);
        return Ok(ReadResult(cmd.readId, ReadFailed, None));
      }
      var reported := Canonical(ctx.workspace, cmd.observations);
      if reported.Err? { return Err(reported.error); }
      var current := CurrentObservations(Db(), ctx.workspace, KeySet(read.started));
      if current.Err? { return Err(current.error); }
      if read.started != current.value || !SameStates(read.started, reported.value) {
        FinishRead(cmd.readId, ReadFailed);
        return Ok(ReadResult(cmd.readId, ReadFailed, None));
      }
      CurrentIds(Db(), ctx.workspace, KeySet(read.started));
      var id := nextUuid;
      FinishRead(cmd.readId, ReadCompleted);
      RecordRead(ctx.Task(), current.value, read.startedAt);
      return Ok(ReadResult(cmd.readId, ReadCompleted, Some(id)));
    }

    // ------------------------------------------------------------ writes

    method ActiveTaskLease(t: TaskKey) returns (b: Option<Uuid>)
      requires Inv(Db())
      ensures b == if HasTaskLease(Db(), t) then Some(TaskLease(Db(), t)) else None
    {
      hide Inv;
      if exists c :: c in leases && leases[c].task == t {
        var c :| c in leases && leases[c].task == t;
        OneLeasePerTask(Db(), c, TaskLease(Db(), t));
        return Some(c);
      }
      return None;
    }

    method PendingTaskRequest(t: TaskKey) returns (b: Option<Uuid>)
      requires Inv(Db())
      ensures b == if HasPending(Db(), t) then Some(PendingRequest(Db(), t)) else None
    {
      hide Inv;
      if exists c :: c in requests && requests[c].task == t && requests[c].Pending() {
        var c :| c in requests && requests[c].task == t && requests[c].Pending();
        OnePending(Db(), t, c);
        return Some(c);
      }
      return None;
    }

    /** Adds the keys whose identity is not there yet. */
    static method MergeResourceKeys(target: ResourceSet, additions: ResourceSet) returns (merged: ResourceSet)
      ensures merged == Merge(target, additions)
    {
      merged := target;
      var todo := additions.Keys;
      while todo != {}
        invariant todo <= additions.Keys
        invariant merged == (map i | i in additions && i !in todo :: additions[i]) + target
        decreases todo
      {
        var i :| i in todo;
        todo := todo - {i};
        if i !in merged { merged := merged[i := additions[i]]; }
      }
    }

    /** Everything the task holds, waits for or asks for. */
    method UnionOf(t: TaskKey, active: Option<Uuid>, pending: Option<Uuid>, requested: ResourceSet) returns (union: ResourceSet)
      requires active == if HasTaskLease(Db(), t) then Some(TaskLease(Db(), t)) else None
      requires pending == if HasPending(Db(), t) then Some(PendingRequest(Db(), t)) else None
      ensures union == Commands.Union(Db(), t, requested)
    {
      hide HasTaskLease, HasPending;
      union := if active.Some? then leases[active.value].resources else map[];
      if pending.Some? {
        union := MergeResourceKeys(union, requests[pending.value].resources);
      } else {
        assert union == Merge(union, map[]);
      }
      union := MergeResourceKeys(union, requested);
    }

    method Enqueue(ctx: Context, rs: ResourceSet, expiresAt: Instant) returns (b: Uuid)
      modifies `requests, `queueSequence, `nextUuid
      ensures Db() == Commands.Enqueue(old(Db()), ctx, rs, expiresAt) && b == old(nextUuid)
      ensures LastInQueue(old(Db()), Db(), b, ctx.Task(), rs)
    {
      EnqueuedLast(Db(), ctx, rs, expiresAt);
      hide LastInQueue, Commands.Replaced;
      b := nextUuid;
      var t := ctx.Task();
      var request := Request(t, ctx.agent, Queued, 1, queueSequence + 1, None, expiresAt, None, rs);
      requests, queueSequence, nextUuid := Commands.Replaced(requests, t, b)[b := request], queueSequence + 1, nextUuid + 1;
    }

    method JoinQueue(ctx: Context, cmd: Command, reported: ObservationSet, active: Option<Uuid>, pending: Option<Uuid>,
                     union: ResourceSet) returns (r: Response)
      requires Inv(Db()) && cmd.WritePrepare? && Commands.OwnerError(Db(), ctx, true).None? && Filed(ctx.workspace, reported)
      requires union == Commands.Union(Db(), ctx.Task(), KeySet(reported))
      requires active == if HasTaskLease(Db(), ctx.Task()) then Some(TaskLease(Db(), ctx.Task())) else None
      requires pending == if HasPending(Db(), ctx.Task()) then Some(PendingRequest(Db(), ctx.Task())) else None
      modifies this
      ensures Commands.JoinQueue(old(Db()), ctx, cmd, reported, union) == Accepted(Db(), r)
    {
      hide Inv, Conserved, Commands.Union, Promote, Commands.Enqueue, HasTaskLease, HasPending, Commands.OwnerError;
      hide Commands.ReleaseTaskLeases, HasHistoricalEvidence;
      ghost var start := Db();
      if !HasHistoricalEvidence(Db(), ctx.Task(), reported) {
        return RereadRequired((if active.Some? then [active.value] else []) + (if pending.Some? then [pending.value] else []));
      }
      if active.Some? && leases[active.value].slots != map[] { return Denied; }
      if active.None? && pending.Some? && requests[pending.value].resources == union { return QueuedAs(pending.value); }
      JoinQueueReady(start, ctx, cmd, reported);
      if active.Some? {
        ReleaseTaskLeases(ctx.Task());
        PromoteWaiters(ctx.observedAt);
      }
      var b := Enqueue(ctx, union, cmd.requestExpiresAt);
      PromoteWaiters(ctx.observedAt);
      return QueuedAs(b);
    }

    /** The lease to write under: the task's own, grown, or a new one. */
    method EnsureActiveLease(ctx: Context, active: Option<Uuid>, union: ResourceSet, expiresAt: Instant)
      returns (r: Result<Uuid, StoreError>)
      requires active == if HasTaskLease(Db(), ctx.Task()) then Some(TaskLease(Db(), ctx.Task())) else None
      modifies `leases, `nextUuid
      ensures var e := Commands.GrantError(old(Db()), ctx, union);
              if e.Some? then r == Err(e.value)
              else && r == Ok(Commands.GrantBatch(old(Db()), ctx.Task()))
                   && Db() == Commands.Grant(old(Db()), ctx, union, expiresAt)
    {
      hide HasTaskLease;
      if active.Some? {
        var b := active.value;
        var l := leases[b];
        if !l.state.LeaseActive? || l.expiresAt <= ctx.observedAt { return Err(InvalidState); }
        if union.Keys != l.resources.Keys && l.slots != map[] { return Err(InvalidState); }
        if exists i :: i in union && i !in l.resources && ResourceRef(ctx.workspace, i) !in resources { return Err(NotFound); }
        if union.Keys != l.resources.Keys || l.expiresAt != expiresAt {
          leases := leases[b := l.(resources := union, version := l.version + 1, expiresAt := expiresAt)];
        }
        return Ok(b);
      }
      if exists i :: i in union && ResourceRef(ctx.workspace, i) !in resources { return Err(NotFound); }
      var b := nextUuid;
      leases := leases[b := Lease(ctx.Task(), ctx.agent, LeaseActive, 1, expiresAt, false, union, map[])];
      nextUuid := nextUuid + 1;
      return Ok(b);
    }

    method BeginWrite(ctx: Context, cmd: Command, batch: Uuid, requested: ResourceSet, start: seq<Observation>)
      requires cmd.WritePrepare? && batch in leases
      modifies `attempts, `leases, `nextUuid
      ensures Db() == Commands.BeginWrite(old(Db()), ctx, cmd, batch, requested, start)
    {
      var a := nextUuid;
      var l := leases[batch];
      attempts, leases, nextUuid :=
        attempts[a := WriteAttempt(ctx.Task(), a + 1, cmd.invocation, batch, cmd.operation, start, Executing, cmd.attemptDeadline)],
        leases[batch := l.(slots := l.slots + map i | i in requested :: a)],
        a + 2;
    }

    method DirectWrite(ctx: Context, cmd: Command, reported: ObservationSet, active: Option<Uuid>, union: ResourceSet)
      returns (r: Result<Response, StoreError>)
      requires Inv(Db()) && cmd.WritePrepare? && Canonical(ctx.workspace, cmd.current) == Ok(reported)
      requires Commands.OwnerError(Db(), ctx, true).None?
      requires union == Commands.Union(Db(), ctx.Task(), KeySet(reported))
      requires active == if HasTaskLease(Db(), ctx.Task()) then Some(TaskLease(Db(), ctx.Task())) else None
      modifies this
      ensures Carried(Commands.DirectWrite(old(Db()), ctx, cmd, reported, union), Db(), r)
    {
      hide Inv, CurrentObservations, SameStates, HasCurrentEvidence, Commands.GrantedWrite;
      hide HasTaskLease, Canonical, Commands.StartOf, Commands.Union, Commands.OwnerError;
      var requested := KeySet(reported);
      var current := CurrentObservations(Db(), ctx.workspace, requested);
      if current.Err? { return Err(current.error); }
      if !SameStates(current.value, reported) || !HasCurrentEvidence(Db(), ctx.Task(), current.value, None) {
        return Ok(RereadRequired(if active.Some? then [active.value] else []));
      }
      Commands.CanonicalKeys(ctx.workspace, cmd.current);
      r := GrantedWrite(ctx, cmd, active, requested, union, Commands.StartOf(cmd.current, current.value));
    }

    method GrantedWrite(ctx: Context, cmd: Command, active: Option<Uuid>, requested: ResourceSet, union: ResourceSet,
                        start: seq<Observation>) returns (r: Result<Response, StoreError>)
      requires Inv(Db()) && cmd.WritePrepare? && Commands.OwnerError(Db(), ctx, true).None?
      requires union == Commands.Union(Db(), ctx.Task(), requested)
      requires active == if HasTaskLease(Db(), ctx.Task()) then Some(TaskLease(Db(), ctx.Task())) else None
      modifies this
      ensures Carried(Commands.GrantedWrite(old(Db()), ctx, cmd, requested, union, start), Db(), r)
    {
      hide Inv, Commands.GrantError, Commands.Grant, HasTaskLease, Revoke, Commands.BeginWrite, Commands.Union;
      hide Commands.OwnerError, Commands.SlotTaken, Commands.InvocationUsed, Commands.GrantBatch, Keys;
      GrantDoes(Db(), ctx, requested, cmd.leaseExpiresAt);
      var lease := EnsureActiveLease(ctx, active, union, cmd.leaseExpiresAt);
      if lease.Err? { return Err(lease.error); }
      var a := nextUuid;
      var refused := PrepareWriteAttempt(ctx, cmd, lease.value, union, requested, start);
      if refused.Some? { return Err(refused.value); }
      return Ok(Ready(a, a + 1, lease.value));
    }

    /** Revokes what others read of the resources and takes a slot on each one written,
        unless a slot is taken or the invocation has an attempt already. */
    method PrepareWriteAttempt(ctx: Context, cmd: Command, batch: Uuid, union: ResourceSet, requested: ResourceSet,
                               start: seq<Observation>) returns (refused: Option<StoreError>)
      requires cmd.WritePrepare? && batch in leases
      modifies this
      ensures refused ==
              if Commands.SlotTaken(old(leases)[batch], requested) then Some(InvalidState)
              else if Commands.InvocationUsed(old(attempts), ctx.Task(), cmd.invocation) then Some(ConstraintViolation)
              else None
      ensures refused.None? ==>
                var keys := Keys(ctx.workspace, union) + Keys(ctx.workspace, requested);
                Db() == Commands.BeginWrite(Revoke(old(Db()), keys, Some(ctx.Task())), ctx, cmd, batch, requested, start)
    {
      hide Revoke, Commands.BeginWrite;
      var t := ctx.Task();
      if Commands.SlotTaken(leases[batch], requested) { return Some(InvalidState); }
      if Commands.InvocationUsed(attempts, t, cmd.invocation) { return Some(ConstraintViolation); }
      RevokeTwice(Db(), Keys(ctx.workspace, union), Keys(ctx.workspace, requested), Some(t));
      RevokeEach(Keys(ctx.workspace, union), Some(t));
      RevokeEach(Keys(ctx.workspace, requested), Some(t));
      BeginWrite(ctx, cmd, batch, requested, start);
      return None;
    }

    method PrepareWrite(ctx: Context, cmd: Command) returns (r: Result<Response, StoreError>)
      requires Inv(Db()) && cmd.WritePrepare?
      modifies this
      ensures Carried(Commands.PrepareWrite(old(Db()), ctx, cmd), Db(), r)
    {
      hide Inv, Commands.Union, Commands.JoinQueue, Commands.DirectWrite, ValidateOperationStart, Canonical, Commands.WithinWindow;
      hide HasPending, HasTaskLease, AgentSlotOccupied, Conflict, QueueConflict;
      var e := Commands.OwnerError(Db(), ctx, true);
      if e.Some? { return Err(e.value); }
      var t := ctx.Task();
      var settings := tasks[t].settings;
      if || !Commands.WithinWindow(ctx.observedAt, cmd.requestExpiresAt, settings.offerTtl)
         || !Commands.WithinWindow(ctx.observedAt, cmd.leaseExpiresAt, settings.leaseExpiry)
         || cmd.attemptDeadline <= ctx.observedAt || cmd.invocation == BLANK {
        return Err(InvalidInput);
      }
      var reported := Canonical(ctx.workspace, cmd.current);
      if reported.Err? { return Err(reported.error); }
      if reported.value == map[] { return Err(InvalidInput); }
      if ValidateOperationStart(cmd.operation, cmd.current).Err? { return Err(InvalidInput); }
      var active := ActiveTaskLease(t);
      var pending := PendingTaskRequest(t);
      var union := UnionOf(t, active, pending, KeySet(reported.value));
      CanonicalFiled(ctx.workspace, cmd.current);
      if || pending.Some? || AgentSlotOccupied(Db(), ctx.workspace, ctx.agent, Some(t))
         || Conflict(Db(), t, union) || QueueConflict(Db(), t, union) {
        var response := JoinQueue(ctx, cmd, reported.value, active, pending, union);
        return Ok(response);
      }
      r := DirectWrite(ctx, cmd, reported.value, active, union);
    }

    // ------------------------------------------------------------ leases

    method ActivateLease(ctx: Context, cmd: Command) returns (r: Result<Response, StoreError>)
      requires cmd.LeaseActivate?
      modifies this
      ensures Carried(Commands.ActivateLease(old(Db()), ctx, cmd), Db(), r)
    {
      hide CurrentObservations, HasCurrentEvidence, AgentSlotOccupied, Conflict, HasTaskLease, Revoke;
      var e := Commands.OwnerError(Db(), ctx, true);
      if e.Some? { return Err(e.value); }
      var t := ctx.Task();
      if !Commands.WithinWindow(ctx.observedAt, cmd.leaseExpiresAt, tasks[t].settings.leaseExpiry) { return Err(InvalidInput); }
      if cmd.batch !in requests || requests[cmd.batch].task != t { return Err(NotFound); }
      var q := requests[cmd.batch];
      var refused := Ok(ActivateResult(cmd.batch, false));
      if !q.state.Offered? || q.offer.None? || q.offer.value.id != cmd.offer || q.version != cmd.version { return refused; }
      var current := CurrentObservations(Db(), ctx.workspace, q.resources);
      if current.Err? { return Err(current.error); }
      if !HasCurrentEvidence(Db(), t, current.value, Some(q.offer.value.offeredAt)) { return refused; }
      if AgentSlotOccupied(Db(), ctx.workspace, ctx.agent, None) { return refused; }
      if Conflict(Db(), t, q.resources) || HasTaskLease(Db(), t) { return refused; }
      if cmd.batch in leases { return Err(ConstraintViolation); }
      WithActivated(ctx, cmd);
      return Ok(ActivateResult(cmd.batch, true));
    }

    method WithActivated(ctx: Context, cmd: Command)
      requires cmd.LeaseActivate? && cmd.batch in requests
      modifies `intents, `evidence, `leases, `requests
      ensures Db() == Commands.WithActivated(old(Db()), ctx, cmd)
    {
      hide Revoke;
      var q := requests[cmd.batch];
      RevokeSettles(Db(), Keys(ctx.workspace, q.resources), Some(ctx.Task()));
      RevokeEach(Keys(ctx.workspace, q.resources), Some(ctx.Task()));
      leases, requests :=
        leases[cmd.batch := Lease(ctx.Task(), ctx.agent, LeaseActive, q.version + 1, cmd.leaseExpiresAt, false, q.resources, map[])],
        requests[cmd.batch := q.(state := Activated, version := q.version + 1)];
    }

    method DropLease(b: Uuid)
      modifies `leases
      ensures Db() == Commands.DropLease(old(Db()), b)
    {
      leases := leases - {b};
    }

    method DrainLease(b: Uuid)
      modifies `leases
      ensures Db() == Commands.DrainLease(old(Db()), b)
    {
      if b in leases { leases := leases[b := Drained(leases[b])]; }
    }

    method ReleaseLease(ctx: Context, cmd: Command) returns (r: Result<Response, StoreError>)
      requires Inv(Db()) && cmd.LeaseRelease?
      modifies this
      ensures Carried(Commands.ReleaseLease(old(Db()), ctx, cmd), Db(), r)
    {
      hide Inv, Conserved, Promote, HasTaskLease, Commands.DropLease, Commands.DrainLease;
      var e := Commands.OwnerError(Db(), ctx, false);
      if e.Some? { return Err(e.value); }
      var active := ActiveTaskLease(ctx.Task());
      if active != Some(cmd.batch) { return Err(NotFound); }
      if leases[cmd.batch].slots == map[] {
        DropIdleKeeps(Db(), cmd.batch);
        DropLease(cmd.batch);
        PromoteWaiters(ctx.observedAt);
        return Ok(ReleaseResult(cmd.batch, true));
      }
      DrainLease(cmd.batch);
      return Ok(ReleaseResult(cmd.batch, false));
    }

    // -------------------------------------------------- write completion

    method Settle(a: Uuid, status: WriteStatus)
      requires a in attempts
      modifies `attempts, `leases
      ensures Db() == Commands.Settle(old(Db()), a, status)
      ensures a in attempts && attempts[a].status == status && SlotsFreed(old(Db()), Db(), a)
    {
      SettledFrees(Db(), a, status);
      hide SlotsFreed, Commands.Freed;
      attempts, leases := attempts[a := attempts[a].(status := status)], Commands.Freed(leases, a);
    }

    method RecordVerdict(t: TaskKey, attempt: WriteAttempt, verdict: WriteStatus, post: seq<Observation>)
      requires Canonical(t.workspace, post).Ok?
      modifies `resources, `intents, `evidence, `nextUuid
      ensures Db() == Commands.RecordVerdict(old(Db()), t, attempt, verdict, Canonical(t.workspace, post).value)
    {
      hide Canonical, Sync, Synced, Revoke, ReadEvidence.RecordOwnWrite;
      if verdict.WriteCompleted? {
        var synced := SyncObservations(t.workspace, post);
        RecordOwnWrite(t, synced.value);
      } else if verdict.Uncertain? {
        RevokeEach(Commands.KeysOf(attempt.start), None);
      }
    }

    method FinishDraining(t: TaskKey) returns (finished: bool)
      modifies `tasks, `leases
      ensures Db() == Commands.FinishDraining(old(Db()), t)
      ensures finished == Commands.FinishDue(old(Db()), t)
    {
      hide Busy, Commands.ReleaseTaskLeases;
      if t !in tasks || !tasks[t].status.Draining? || tasks[t].terminal.None? || Busy(Db(), t) { return false; }
      var terminal := tasks[t].terminal.value;
      ReleasedHasNone(Db(), t);
      ReleaseTaskLeases(t);
      SetStatus(t, terminal);
      return true;
    }

    method CompleteWrite(ctx: Context, cmd: Command) returns (r: Result<Response, StoreError>)
      requires Valid() && cmd.WriteComplete?
      modifies this
      ensures Carried(Commands.CompleteWrite(old(Db()), ctx, cmd), Db(), r)
    {
      hide Inv, Conserved, Canonical, Filed, Commands.WriteVerdict, Commands.RecordVerdict, Commands.Settle, Promote;
      hide Commands.DrainLease, Commands.DropLease, Commands.FinishDue, Commands.FinishDraining, Commands.ReleaseDue;
      ghost var start := Db();
      var e := Commands.OwnerError(Db(), ctx, false);
      if e.Some? { return Err(e.value); }
      var t := ctx.Task();
      if cmd.attempt !in attempts || attempts[cmd.attempt].task != t { return Err(NotFound); }
      var attempt := attempts[cmd.attempt];
      if attempt.invocation != cmd.invocation || attempt.permit != cmd.permit { return Err(Ownership); }
      if !attempt.status.Executing? { return Err(InvalidState); }
      var actual := Canonical(ctx.workspace, cmd.post);
      if actual.Err? { return Err(actual.error); }
      var expected := Canonical(ctx.workspace, cmd.expected);
      if expected.Err? { return Err(expected.error); }
      var verdict := Commands.WriteVerdict(attempt, cmd, actual.value, expected.value);
      VerdictFinal(attempt, cmd, actual.value, expected.value);
      CanonicalFiled(ctx.workspace, cmd.post);
      LeftReady(start, t, cmd.attempt, verdict, actual.value);
      RecordVerdict(t, attempt, verdict, cmd.post);
      Settle(cmd.attempt, verdict);
      var released := false;
      if verdict.Uncertain? {
        DrainLease(attempt.batch);
      } else if Commands.ReleaseDue(Db(), attempt.batch) {
        DropLease(attempt.batch);
        released := true;
      }
      var finished := FinishDraining(t);
      if released || finished { PromoteWaiters(ctx.observedAt); }
      return Ok(WriteResult(cmd.attempt, verdict));
    }

    // ----------------------------------------------------------- wrapper

    method Operate(ctx: Context, cmd: Command) returns (r: Result<Response, StoreError>)
      requires Valid()
      modifies this
      ensures Carried(Commands.Operate(old(Db()), ctx, cmd), Db(), r)
      ensures Truthful(old(Db()), Db(), ctx, cmd, r)
    {
      ghost var start := Db();
      hide Truthful;
      hide Inv, Conserved, Carried, Commands.StartTask, Commands.Heartbeat, Commands.EndTask, Commands.StartRead;
      hide Commands.CompleteRead, Commands.PrepareWrite, Commands.ActivateLease, Commands.ReleaseLease, Commands.CompleteWrite;
      match cmd {
        case TaskStart(_, _, _, _) => r := StartTask(ctx, cmd);
        case TaskHeartbeat(_, _) => r := Heartbeat(ctx, cmd);
        case TaskEnd(_, _) => r := EndTask(ctx, cmd);
        case ReadStart(_, _, _) => r := StartRead(ctx, cmd);
        case ReadComplete(_, _, _, _, _, _, _) => r := CompleteRead(ctx, cmd);
        case WritePrepare(_, _, _, _, _, _) => r := PrepareWrite(ctx, cmd);
        case LeaseActivate(_, _, _, _) => r := ActivateLease(ctx, cmd);
        case LeaseRelease(_) => r := ReleaseLease(ctx, cmd);
        case WriteComplete(_, _, _, _, _, _, _) => r := CompleteWrite(ctx, cmd);
      }
      CarriedTruthful(start, Db(), ctx, cmd, r);
    }

    /** One command in one transaction: the recorded answer of a repeated request, or
        the sweeps and the command, all of it undone on an error. */
    method Execute(ctx: Context, cmd: Command) returns (r: Result<Response, StoreError>)
      requires Valid()
      modifies this
      ensures Valid()
      ensures (Db(), r) == Commands.Execute(old(Db()), ctx, cmd)
    {
      hide Inv, Conserved, Commands.Operate, Sweeps.ExpireTasksAndLeases, Promote;
      ExecuteSafe(Db(), ctx, cmd);
      if !ctx.Valid() { return Err(InvalidInput); }
      var key := Commands.ReceiptKeyOf(ctx);
      if key in receipts {
        return if receipts[key].command == cmd then Ok(receipts[key].response) else Err(IdempotencyMismatch);
      }
      var before := Db();
      ExpireTasksAndLeases(ctx.observedAt);
      PromoteWaiters(ctx.observedAt);
      r := Operate(ctx, cmd);
      if r.Err? {
        Restore(before);
      } else {
        receipts := receipts[key := Receipt(cmd, r.value)];
      }
    }

    method ForgetInactive()
      modifies `readAttempts, `intents, `evidence
      ensures Db() == Sweeps.ForgetInactive(old(Db()))
      ensures OnlyActiveKnow(old(Db()), Db())
    {
      ForgottenInactive(Db());
      hide OnlyActiveKnow;
      hide AbandonedReads, AbandonedIntents, AbandonedEvidence;
      readAttempts, intents, evidence := AbandonedReads(Db()), AbandonedIntents(Db()), AbandonedEvidence(Db());
    }

    method DrainOverdueWrites(now: Instant)
      modifies `leases
      ensures Db() == Sweeps.DrainOverdueWrites(old(Db()), now)
    {
      var overdue := set a | a in attempts && attempts[a].status.Executing? && attempts[a].deadline <= now :: attempts[a].batch;
      leases := map b | b in leases ::
        if leases[b].state.LeaseActive? && b in overdue then Drained(leases[b]) else leases[b];
    }

    method Maintain(now: Instant)
      requires Valid()
      modifies this
      ensures Valid()
      ensures Db() == Sweeps.Maintain(old(Db()), now)
    {
      hide Inv, Conserved, Sweeps.ExpireOffers, Sweeps.ExpireTasksAndLeases, Sweeps.ForgetInactive, Sweeps.DrainOverdueWrites;
      hide Promote;
      ExpireOffersKeeps(Db(), now);
      ExpireOffers(now);
      ExpireTasksAndLeases(now);
      ForgetInactiveKeeps(Db());
      ForgetInactive();
      DrainOverdueKeeps(Db(), now);
      DrainOverdueWrites(now);
      PromoteWaiters(now);
    }

    /** Follows a request through its replacements, as a client waiting for its offer does. */
    method LatestRequest(batch: Uuid) returns (last: Uuid)
      requires Valid() && batch in requests
      ensures last in requests && last == RequestLives.Last(Db(), batch)
      ensures !requests[last].state.Superseded? && requests[last].task == requests[batch].task
      ensures requests[batch].resources.Keys <= requests[last].resources.Keys
    {
      hide Inv, Conserved;
      last := batch;
      while requests[last].state.Superseded?
        invariant last in requests && RequestLives.Last(Db(), last) == RequestLives.Last(Db(), batch)
        decreases queueSequence - requests[last].sequence
      {
        RequestLives.ChainLink(Db(), last);
        last := requests[last].supersededBy.value;
      }
    }
  }
}
