/** A permit to write rests on evidence that no other task's write has overtaken
    (crates/stateful-store/src/store_v2.rs). */
module Permits {
  import opened Basics
  import opened Resources
  import opened Operations
  import opened Tables
  import opened Sweeps
  import opened ReadEvidence
  import opened Commands
  import opened Invariants
  import opened SweepProofs
  import opened EvidenceProofs
  import opened GrantProofs
  import opened Safety
  import opened Evolution
  import opened Runs
  import opened ExactlyOnce
  import opened Theorems

  /** Valid evidence of the task for exactly this state of the resource. */
  ghost predicate Backs(db: Database, e: EvidenceKey, t: TaskKey, o: Observation) {
    && e in db.evidence && db.evidence[e].valid && db.evidence[e].task == t
    && SameState(db.evidence[e].observation, o)
  }

  lemma EvidenceBacks(db: Database, t: TaskKey, current: ObservationSet, reported: ObservationSet, i: ResourceId)
    requires SameStates(current, reported) && HasCurrentEvidence(db, t, current, None) && i in reported
    ensures exists e :: Backs(db, e, t, reported[i])
  {
    assert HasEvidence(db, t, current[i], None);
    var e :| && e in db.evidence && db.evidence[e].task == t && db.evidence[e].valid
             && e.id == current[i].key.id && db.evidence[e].observation == current[i];
    assert SameState(current[i], reported[i]);
    assert Backs(db, e, t, reported[i]);
  }

  /** Only a direct write is answered with a permit, and only on current evidence. */
  lemma PermitBacked(db: Database, ctx: Context, cmd: Command, o: Observation)
    requires cmd.WritePrepare? && o in cmd.current
    requires PrepareWrite(db, ctx, cmd).Accepted? && PrepareWrite(db, ctx, cmd).response.Ready?
    ensures exists e :: Backs(db, e, ctx.Task(), o)
  {
    hide Union, Contended, CurrentObservations, SameStates, HasCurrentEvidence, GrantedWrite, ValidateOperationStart;
    hide HasTaskLease, HasPending, HasHistoricalEvidence, Backs, Promote, Enqueue, ReleaseTaskLeases, Canonical;
    var reported := Canonical(ctx.workspace, cmd.current).value;
    CanonicalKeys(ctx.workspace, cmd.current);
    var current := CurrentObservations(db, ctx.workspace, KeySet(reported)).value;
    EvidenceBacks(db, ctx.Task(), current, reported, o.key.id);
  }

  lemma SweepKeepsEvidence(db: Database, now: Instant)
    ensures Sweep(db, now).evidence == db.evidence
  {
    hide PromoteThrough, ExpireTasks, ExpireLeases;
    var d := ExpireTasksAndLeases(db, now);
    PromoteFrame(d, d.queueSequence, now);
    ExpiryEvidence(db, now);
  }

  lemma ExpiryEvidence(db: Database, now: Instant)
    ensures ExpireTasksAndLeases(db, now).evidence == db.evidence
  {
    hide Busy;
  }

  lemma ReadyMeans(db: Database, ctx: Context, cmd: Command)
    requires cmd.WritePrepare? && ReceiptKeyOf(ctx) !in db.receipts
    requires Execute(db, ctx, cmd).1.Ok? && Execute(db, ctx, cmd).1.value.Ready?
    ensures var out := PrepareWrite(Sweep(db, ctx.observedAt), ctx, cmd); out.Accepted? && out.response.Ready?
  {
    hide PrepareWrite, Sweep;
  }

  // ----------------------------------------------------------- revocation

  /** The attempt runs under a lease that no valid evidence of another task overlaps. */
  ghost predicate ClearedFor(db: Database, a: Uuid) {
    a in db.attempts && db.attempts[a].batch in db.leases && Cleared(db, db.attempts[a].batch)
  }

  lemma BegunCleared(d: Database, e: Database, b: Uuid, a: Uuid, ids: set<ResourceId>)
    requires Begins(d, e, b, a, ids) && Cleared(d, b)
    ensures ClearedFor(e, a)
  {
    hide Overlap;
  }

  /** A permit revokes what every other task knows of anything under its lease. */
  lemma DirectWriteClears(db: Database, ctx: Context, cmd: Command, reported: ObservationSet)
    requires Inv(db) && cmd.WritePrepare? && OwnerError(db, ctx, true).None?
    requires Canonical(ctx.workspace, cmd.current) == Ok(reported) && reported != map[]
    ensures var r := DirectWrite(db, ctx, cmd, reported, Union(db, ctx.Task(), KeySet(reported)));
            r.Accepted? && r.response.Ready? ==> ClearedFor(r.db, r.response.attempt)
  {
    hide Inv, Union, CurrentObservations, SameStates, HasCurrentEvidence, GrantError, GrantBatch;
    hide Grant, Grants, Revoke, BeginWrite, Begins, Cleared, ClearedFor, OwnerError, Canonical, StartOf;
    var t := ctx.Task();
    var requested := KeySet(reported);
    var union := Union(db, t, requested);
    var r := DirectWrite(db, ctx, cmd, reported, union);
    if r.Accepted? && r.response.Ready? {
      var batch := GrantBatch(db, t);
      var granted := Grant(db, ctx, union, cmd.leaseExpiresAt);
      var keys := Keys(ctx.workspace, union) + Keys(ctx.workspace, requested);
      var revoked := Revoke(granted, keys, Some(t));
      GrantDoes(db, ctx, requested, cmd.leaseExpiresAt);
      GrantsLease(db, granted, batch, ctx, union);
      RevokeSettles(granted, keys, Some(t));
      RevokeClears(granted, batch, keys);
      CanonicalKeys(ctx.workspace, cmd.current);
      StartIds(db, ctx.workspace, cmd.current, requested);
      UnionHasRequested(db, t, requested);
      var start := StartOf(cmd.current, CurrentObservations(db, ctx.workspace, requested).value);
      BeginWriteDoes(revoked, ctx, cmd, batch, requested, start);
      BegunCleared(revoked, r.db, batch, revoked.nextUuid, requested.Keys);
    }
  }

  lemma PermitClears(db: Database, ctx: Context, cmd: Command)
    requires Inv(db) && cmd.WritePrepare?
    requires PrepareWrite(db, ctx, cmd).Accepted? && PrepareWrite(db, ctx, cmd).response.Ready?
    ensures ClearedFor(PrepareWrite(db, ctx, cmd).db, PrepareWrite(db, ctx, cmd).response.attempt)
  {
    hide Inv, Union, Contended, DirectWrite, ValidateOperationStart, ClearedFor, Canonical;
    hide HasTaskLease, HasPending, HasHistoricalEvidence, Promote, Enqueue, ReleaseTaskLeases;
    DirectWriteClears(db, ctx, cmd, Canonical(ctx.workspace, cmd.current).value);
  }

  lemma ReadyClears(db: Database, ctx: Context, cmd: Command)
    requires Inv(db) && cmd.WritePrepare? && ReceiptKeyOf(ctx) !in db.receipts
    requires Execute(db, ctx, cmd).1.Ok? && Execute(db, ctx, cmd).1.value.Ready?
    ensures ClearedFor(Execute(db, ctx, cmd).0, Execute(db, ctx, cmd).1.value.attempt)
  {
    hide Inv, PrepareWrite, Sweep, Cleared;
    var swept := Sweep(db, ctx.observedAt);
    SweepKeeps(db, ctx.observedAt);
    ReadyMeans(db, ctx, cmd);
    PermitClears(swept, ctx, cmd);
    SameCleared(PrepareWrite(swept, ctx, cmd).db, Execute(db, ctx, cmd).0, Execute(db, ctx, cmd).1.value.attempt);
  }

  lemma SameCleared(d: Database, e: Database, a: Uuid)
    requires ClearedFor(d, a) && e.attempts == d.attempts && e.leases == d.leases && e.evidence == d.evidence
    ensures ClearedFor(e, a)
  {
    hide Overlap;
  }

  /** The `i`-th event is carried out and answered with a permit. */
  ghost predicate GivesPermit(run: seq<Event>, i: nat)
    requires i < |run|
  {
    && run[i].Request? && run[i].cmd.WritePrepare? && !IsRetry(StateAfter(run[..i]), run[i])
    && Reply(run, i).Ok? && Reply(run, i).value.Ready?
  }

  lemma PermitCleared(run: seq<Event>, i: nat)
    requires i < |run| && GivesPermit(run, i)
    ensures ClearedFor(StateAfter(run[..i + 1]), Reply(run, i).value.attempt)
  {
    hide StateAfter, Execute, Inv, Conserved, ClearedFor;
    RunSafe(run[..i]);
    StateNext(run, i);
    ReadyClears(StateAfter(run[..i]), run[i].ctx, run[i].cmd);
  }

  lemma ClearedMeans(db: Database, a: Uuid, r: ResourceId, k: EvidenceKey)
    requires Inv(db) && ClearedFor(db, a) && WritesOn(db, a, r)
    requires k in db.evidence && db.evidence[k].valid && db.evidence[k].task != db.attempts[a].task
    ensures !Overlap(db.evidence[k].observation.key, SlotKey(db, a, r))
  {
    hide IdsUsed, Owned, Singles, Apart, QueueSound, EvidenceSound, Overlap;
  }

  /** Evidence of another task, from a read or from a write of its own, that is valid at
      any later moment and overlaps what a permit was given for, was recorded after the
      permit was given. */
  lemma PermitOutdatesEvidence(run: seq<Event>, i: nat, j: nat, r: ResourceId, k: EvidenceKey)
    requires i < j <= |run| && GivesPermit(run, i)
    requires WritesOn(StateAfter(run[..i + 1]), Reply(run, i).value.attempt, r)
    requires k in StateAfter(run[..j]).evidence && StateAfter(run[..j]).evidence[k].valid
    requires StateAfter(run[..j]).evidence[k].task != StateAfter(run[..i + 1]).attempts[Reply(run, i).value.attempt].task
    requires Overlap(StateAfter(run[..j]).evidence[k].observation.key,
                     SlotKey(StateAfter(run[..i + 1]), Reply(run, i).value.attempt, r))
    ensures k !in StateAfter(run[..i + 1]).evidence
  {
    hide StateAfter, Execute, Inv, Overlap, ClearedFor, WritesOn;
    hide ResourcesEvolve, TasksEvolve, RequestsEvolve, AttemptsEvolve, LeasesEvolve, ReceiptsEvolve;
    var d := StateAfter(run[..i + 1]);
    assert run[..j][..i + 1] == run[..i + 1];
    RunLater(run[..j], i + 1);
    PermitCleared(run, i);
    if k in d.evidence { ClearedMeans(d, Reply(run, i).value.attempt, r, k); }
  }

  /** What a lease holds a resource under does not change while the attempt lasts. */
  lemma SlotKeyStays(d: Database, e: Database, a: Uuid, r: ResourceId)
    requires AttemptsEvolve(d, e) && LeasesEvolve(d, e) && WritesOn(d, a, r) && WritesOn(e, a, r)
    ensures SlotKey(d, a, r) == SlotKey(e, a, r)
  {
  }

  lemma SlotKeyLater(run: seq<Event>, i: nat, j: nat, a: Uuid, r: ResourceId)
    requires i <= j <= |run| && WritesOn(StateAfter(run[..i]), a, r) && WritesOn(StateAfter(run[..j]), a, r)
    ensures SlotKey(StateAfter(run[..i]), a, r) == SlotKey(StateAfter(run[..j]), a, r)
    ensures StateAfter(run[..i]).attempts[a].task == StateAfter(run[..j]).attempts[a].task
  {
    hide StateAfter, Inv, WritesOn;
    hide ResourcesEvolve, EvidenceEvolves, TasksEvolve, RequestsEvolve, LeasesEvolve, ReceiptsEvolve;
    assert run[..j][..i] == run[..i];
    RunLater(run[..j], i);
    SlotKeyStays(StateAfter(run[..i]), StateAfter(run[..j]), a, r);
    WritesOnMeans(StateAfter(run[..i]), a, r);
  }

  lemma WritesOnMeans(db: Database, a: Uuid, r: ResourceId)
    requires WritesOn(db, a, r)
    ensures a in db.attempts
  {
  }

  /** When two tasks are given permits for overlapping resources, the later permit rests
      on evidence recorded after the earlier one was given, and if that evidence is a
      read, after every moment `m` at which the earlier write was still executing. */
  lemma PermitsSeeLatestWrite(run: seq<Event>, i: nat, m: nat, j: nat, r: ResourceId, o: Observation)
    requires i < m <= j < |run| && GivesPermit(run, i) && GivesPermit(run, j) && o in run[j].cmd.current
    requires var a := Reply(run, i).value.attempt;
             && WritesOn(StateAfter(run[..i + 1]), a, r) && WritesOn(StateAfter(run[..m]), a, r)
             && StateAfter(run[..m]).attempts[a].task != run[j].ctx.Task()
             && Overlap(o.key, SlotKey(StateAfter(run[..m]), a, r))
    ensures exists e ::
              && Backs(StateAfter(run[..j]), e, run[j].ctx.Task(), o)
              && e !in StateAfter(run[..i + 1]).evidence
              && (StateAfter(run[..j]).evidence[e].source.FromRead? ==> e !in StateAfter(run[..m]).evidence)
  {
    hide StateAfter, Execute, PrepareWrite, Sweep, Overlap, WritesOn;
    var a, t := Reply(run, i).value.attempt, run[j].ctx.Task();
    var d := StateAfter(run[..j]);
    var swept := Sweep(d, run[j].ctx.observedAt);
    ReadyMeans(d, run[j].ctx, run[j].cmd);
    PermitBacked(swept, run[j].ctx, run[j].cmd, o);
    var e :| Backs(swept, e, t, o);
    SweepKeepsEvidence(d, run[j].ctx.observedAt);
    assert Backs(d, e, t, o);
    SlotKeyLater(run, i + 1, m, a, r);
    PermitOutdatesEvidence(run, i, j, r, e);
    if d.evidence[e].source.FromRead? {
      assert run[..j][..m] == run[..m];
      NoLostUpdate(run[..j], m, a, r, t, e);
    }
  }
}
