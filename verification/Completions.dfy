/** What the answer to a completed write means for the tables
    (crates/stateful-store/src/store_v2.rs). */
module Completions {
  import opened Basics
  import opened Resources
  import opened Operations
  import opened OperationProofs
  import opened Tables
  import opened Sweeps
  import opened ReadEvidence
  import opened Commands
  import opened Invariants
  import opened EvidenceProofs
  import opened Safety

  /** The projection and the evidence are as they were. */
  predicate SameKnowledge(d: Database, e: Database) { e.resources == d.resources && e.evidence == d.evidence }

  lemma FinishKnows(db: Database, t: TaskKey)
    ensures SameKnowledge(db, FinishDraining(db, t))
  {
    hide Busy;
  }

  lemma PromoteKnows(db: Database, now: Instant)
    ensures SameKnowledge(db, Promote(db, now))
  {
    hide PromoteThrough;
    PromoteFrame(db, db.queueSequence, now);
  }

  lemma LeftKnows(db: Database, t: TaskKey, a: Uuid, verdict: WriteStatus, actual: ObservationSet)
    requires a in db.attempts && a in RecordVerdict(db, t, db.attempts[a], verdict, actual).attempts
    ensures SameKnowledge(RecordVerdict(db, t, db.attempts[a], verdict, actual), Left(db, t, a, verdict, actual))
  {
    hide RecordVerdict;
  }

  /** The tables a completion leaves know what recording its verdict made them know. */
  lemma CompletionKnows(db: Database, ctx: Context, cmd: Command)
    requires Inv(db) && Conserved(db) && cmd.WriteComplete? && CompleteWrite(db, ctx, cmd).Accepted?
    ensures cmd.attempt in db.attempts && Canonical(ctx.workspace, cmd.post).Ok? && Canonical(ctx.workspace, cmd.expected).Ok?
    ensures var attempt := db.attempts[cmd.attempt];
            var actual := Canonical(ctx.workspace, cmd.post).value;
            var verdict := WriteVerdict(attempt, cmd, actual, Canonical(ctx.workspace, cmd.expected).value);
            && CompleteWrite(db, ctx, cmd).response == WriteResult(cmd.attempt, verdict)
            && SameKnowledge(RecordVerdict(db, ctx.Task(), attempt, verdict, actual), CompleteWrite(db, ctx, cmd).db)
  {
    hide Inv, Conserved, Canonical, Filed, WriteVerdict, RecordVerdict, Settle, DrainLease, DropLease, FinishDue, Promote;
    hide FinishDraining, ReleaseDue;
    var t := ctx.Task();
    var attempt := db.attempts[cmd.attempt];
    CanonicalFiled(ctx.workspace, cmd.post);
    var actual := Canonical(ctx.workspace, cmd.post).value;
    var verdict := WriteVerdict(attempt, cmd, actual, Canonical(ctx.workspace, cmd.expected).value);
    VerdictFinal(attempt, cmd, actual, Canonical(ctx.workspace, cmd.expected).value);
    LeftReady(db, t, cmd.attempt, verdict, actual);
    LeftKnows(db, t, cmd.attempt, verdict, actual);
    FinishKnows(Left(db, t, cmd.attempt, verdict, actual), t);
    PromoteKnows(FinishDraining(Left(db, t, cmd.attempt, verdict, actual), t), ctx.observedAt);
  }

  /** The writer has valid evidence of the state, from its own write. */
  ghost predicate OwnEvidence(db: Database, t: TaskKey, o: Observation) {
    exists e :: && e in db.evidence && db.evidence[e].valid && db.evidence[e].task == t
                && db.evidence[e].source.FromOwnWrite? && SameState(db.evidence[e].observation, o)
  }

  lemma OwnWriteFiled(db: Database, t: TaskKey, os: ObservationSet, i: ResourceId)
    requires i in os
    ensures RecordOwnWrite(db, t, os).resources == db.resources && OwnEvidence(RecordOwnWrite(db, t, os), t, os[i])
  {
    hide FileUnder;
    var d := RecordOwnWrite(db, t, os);
    var e := EvidenceKey(db.nextUuid, i);
    assert e in d.evidence && d.evidence[e] == Evidence(t, FromOwnWrite, os[i], true);
  }

  lemma OwnWriteKnown(db: Database, t: TaskKey, actual: ObservationSet, i: ResourceId)
    requires Filed(t.workspace, actual) && i in actual
    ensures var d := RecordOwnWrite(Sync(db, t.workspace, actual), t, Synced(db, actual));
            && ResourceRef(t.workspace, i) in d.resources
            && d.resources[ResourceRef(t.workspace, i)].state == actual[i].observed
            && OwnEvidence(d, t, actual[i])
  {
    hide Sync, RecordOwnWrite, OwnEvidence;
    var synced := Sync(db, t.workspace, actual);
    SyncRows(db, t.workspace, actual, ResourceRef(t.workspace, i));
    OwnWriteFiled(synced, t, Synced(db, actual), i);
    SameOwn(RecordOwnWrite(synced, t, Synced(db, actual)), t, Synced(db, actual)[i], actual[i]);
  }

  lemma SameOwn(db: Database, t: TaskKey, o: Observation, p: Observation)
    requires OwnEvidence(db, t, o) && SameState(o, p)
    ensures OwnEvidence(db, t, p)
  {
  }

  /** The write was a success: the post-state is the expected one, stays within the
      paths it started from, is what the projection now records, and the writer needs
      not read it again. */
  ghost predicate Succeeded(db: Database, e: Database, ctx: Context, cmd: Command, attempt: WriteAttempt)
    requires cmd.WriteComplete?
  {
    && cmd.outcome.Success? && Permutes(cmd.expected, cmd.post) && Within(cmd.post, attempt.start)
    && forall o :: o in cmd.post ==>
         && ResourceRef(ctx.workspace, o.key.id) in e.resources
         && e.resources[ResourceRef(ctx.workspace, o.key.id)].state == o.observed
         && OwnEvidence(e, ctx.Task(), o)
  }

  /** The write failed and changed nothing that is known. */
  ghost predicate FailedCleanly(db: Database, e: Database, cmd: Command, attempt: WriteAttempt, actual: ObservationSet)
    requires cmd.WriteComplete?
  {
    cmd.outcome.FailedKnown? && Unmoved(attempt.start, actual) && SameKnowledge(db, e)
  }

  /** Nobody knows what the write did, and nobody has evidence of what it may have touched. */
  ghost predicate Unknown(db: Database, e: Database, attempt: WriteAttempt) {
    && e.resources == db.resources
    && forall k, o :: k in e.evidence && o in attempt.start && Overlap(o.key, e.evidence[k].observation.key) ==> !e.evidence[k].valid
  }

  lemma UncertainKnown(db: Database, attempt: WriteAttempt)
    ensures Unknown(db, Revoke(db, KeysOf(attempt.start), None), attempt)
  {
    hide Overlap;
    var e := Revoke(db, KeysOf(attempt.start), None);
    forall k, o | k in e.evidence && o in attempt.start && Overlap(o.key, e.evidence[k].observation.key)
      ensures !e.evidence[k].valid
    {
      assert o.key in KeysOf(attempt.start);
    }
  }

  lemma SuccessMeans(db: Database, e: Database, ctx: Context, cmd: Command, attempt: WriteAttempt, actual: ObservationSet,
                     expected: ObservationSet)
    requires cmd.WriteComplete? && Canonical(ctx.workspace, cmd.post) == Ok(actual)
    requires WriteVerdict(attempt, cmd, actual, expected).WriteCompleted?
    requires SameKnowledge(RecordVerdict(db, ctx.Task(), attempt, WriteCompleted, actual), e)
    ensures Succeeded(db, e, ctx, cmd, attempt)
  {
    hide ValidateOperationTransition, Permutes, Within, Canonical, Sync, Synced, RecordOwnWrite, OwnEvidence;
    TransitionExact(attempt.operation, attempt.start, cmd.expected, cmd.post);
    TransitionFramed(attempt.operation, attempt.start, cmd.expected, cmd.post);
    CanonicalKeys(ctx.workspace, cmd.post);
    CanonicalFiled(ctx.workspace, cmd.post);
    var d := RecordVerdict(db, ctx.Task(), attempt, WriteCompleted, actual);
    forall o | o in cmd.post
      ensures ResourceRef(ctx.workspace, o.key.id) in e.resources
      ensures e.resources[ResourceRef(ctx.workspace, o.key.id)].state == o.observed && OwnEvidence(e, ctx.Task(), o)
    {
      OwnWriteKnown(db, ctx.Task(), actual, o.key.id);
      SameOwnEvidence(d, e, ctx.Task(), o);
    }
  }

  lemma SameOwnEvidence(d: Database, e: Database, t: TaskKey, o: Observation)
    requires SameKnowledge(d, e) && OwnEvidence(d, t, o)
    ensures OwnEvidence(e, t, o)
  {
  }

  /** Every answer to a completed write says what the tables now know. */
  lemma CompletionMeans(db: Database, ctx: Context, cmd: Command)
    requires Inv(db) && Conserved(db) && cmd.WriteComplete? && CompleteWrite(db, ctx, cmd).Accepted?
    ensures cmd.attempt in db.attempts && Canonical(ctx.workspace, cmd.post).Ok?
    ensures var r := CompleteWrite(db, ctx, cmd);
            var attempt := db.attempts[cmd.attempt];
            && r.response.WriteResult?
            && match r.response.writeStatus
               case WriteCompleted => Succeeded(db, r.db, ctx, cmd, attempt)
               case WriteFailed => FailedCleanly(db, r.db, cmd, attempt, Canonical(ctx.workspace, cmd.post).value)
               case Uncertain => Unknown(db, r.db, attempt)
               case Executing => false
  {
    hide Inv, Conserved, Canonical, CompleteWrite, Succeeded, Revoke, Unmoved, Unknown, ValidateOperationTransition, Sync;
    CompletionKnows(db, ctx, cmd);
    var attempt := db.attempts[cmd.attempt];
    var actual := Canonical(ctx.workspace, cmd.post).value;
    var expected := Canonical(ctx.workspace, cmd.expected).value;
    var verdict := WriteVerdict(attempt, cmd, actual, expected);
    if verdict.WriteCompleted? {
      SuccessMeans(db, CompleteWrite(db, ctx, cmd).db, ctx, cmd, attempt, actual, expected);
    } else if verdict.Uncertain? {
      UncertainKnown(db, attempt);
      SameUnknown(db, Revoke(db, KeysOf(attempt.start), None), CompleteWrite(db, ctx, cmd).db, attempt);
    }
  }

  lemma SameUnknown(db: Database, d: Database, e: Database, attempt: WriteAttempt)
    requires SameKnowledge(d, e) && Unknown(db, d, attempt)
    ensures Unknown(db, e, attempt)
  {
    hide Overlap;
  }
}
