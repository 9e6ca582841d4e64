/** When a read counts and what it leaves behind, in terms of what the client reported
    at its start and at its end (crates/stateful-store/src/store_v2.rs). */
module ReadAnswers {
  import opened Basics
  import opened Resources
  import opened Operations
  import opened Tables
  import opened Sweeps
  import opened ReadEvidence
  import opened Commands
  import opened Evolution
  import opened Runs
  import opened ExactlyOnce
  import opened StableReads
  import opened Reports

  /** The command names a read in progress of the client's own, active task. */
  ghost predicate Addressed(db: Database, ctx: Context, cmd: Command)
    requires cmd.ReadComplete?
  {
    var t := TaskKey(ctx.workspace, ctx.task);
    && t in db.tasks && db.tasks[t].agent == ctx.agent && db.tasks[t].status == Active
    && cmd.readId in db.readAttempts
    && db.readAttempts[cmd.readId].task == t
    && db.readAttempts[cmd.readId].invocation == cmd.invocation
    && db.readAttempts[cmd.readId].status == ReadStarted
  }

  predicate Clean(cmd: Command)
    requires cmd.ReadComplete?
  {
    cmd.terminalSuccess && cmd.complete && cmd.stable && cmd.exact
  }

  /** The projection still has what was observed, at the same generation. */
  ghost predicate OnRecord(db: Database, workspace: Name, os: ObservationSet) {
    forall i :: i in os ==>
      && os[i].key.workspace == workspace && os[i].key.id == i
      && ResourceRef(workspace, i) in db.resources
      && db.resources[ResourceRef(workspace, i)].state == os[i].observed
      && db.resources[ResourceRef(workspace, i)].generation == os[i].generation
  }

  /** The list reports the same keys in the same states, no more and no fewer. */
  ghost predicate Restates(os: ObservationSet, reported: seq<Observation>) {
    && (forall o :: o in reported ==> o.key.id in os && os[o.key.id].key == o.key && os[o.key.id].observed == o.observed)
    && (forall i :: i in os ==> exists o :: o in reported && o.key.id == i)
  }

  lemma SameStatesExact(workspace: Name, os: ObservationSet, reported: seq<Observation>, set': ObservationSet)
    requires Holds(workspace, reported, set')
    ensures SameStates(os, set') <==> Restates(os, reported)
  {
    if Restates(os, reported) {
      forall i | i in os ensures i in set' {
        var o :| o in reported && o.key.id == i;
      }
      assert forall i :: i in set' ==> set'[i] in reported;
    }
    if SameStates(os, set') {
      forall o | o in reported ensures o.key.id in os && os[o.key.id].key == o.key && os[o.key.id].observed == o.observed {
        assert SameState(os[o.key.id], set'[o.key.id]);
      }
      forall i | i in os ensures exists o :: o in reported && o.key.id == i {
        assert set'[i] in reported;
      }
    }
  }

  predicate AllKnown(db: Database, workspace: Name, os: ObservationSet) {
    forall i :: i in os ==> ResourceRef(workspace, i) in db.resources
  }

  lemma CurrentExact(db: Database, workspace: Name, os: ObservationSet)
    ensures CurrentObservations(db, workspace, KeySet(os)).Ok? <==> AllKnown(db, workspace, os)
    ensures CurrentObservations(db, workspace, KeySet(os)).Err? ==>
              CurrentObservations(db, workspace, KeySet(os)).error == NotFound
    ensures CurrentObservations(db, workspace, KeySet(os)).Ok? ==>
              (CurrentObservations(db, workspace, KeySet(os)).value == os <==> OnRecord(db, workspace, os))
  {
    var r := CurrentObservations(db, workspace, KeySet(os));
    if r.Ok? && OnRecord(db, workspace, os) {
      forall i | i in os ensures r.value[i] == os[i] {
        assert ResourceRef(workspace, i) in db.resources;
      }
    }
    if r.Ok? && r.value == os {
      forall i | i in os ensures os[i].key == ResourceKey(workspace, i, os[i].key.path) {
        assert r.value[i] == os[i];
      }
    }
  }

  /** The answer to a completed read, case by case. A read counts exactly if the client
      calls it clean, reports what the read started from, and nothing of it has changed
      on record since; a read that does not count has failed. */
  lemma ReadAnswer(db: Database, ctx: Context, cmd: Command)
    requires cmd.ReadComplete?
    ensures !Addressed(db, ctx, cmd) ==> CompleteRead(db, ctx, cmd).Rejected?
    ensures Addressed(db, ctx, cmd) ==>
      var started := db.readAttempts[cmd.readId].started;
      match CompleteRead(db, ctx, cmd)
      case Rejected(error) =>
        && Clean(cmd)
        && (if Tidy(ctx.workspace, cmd.observations)
            then !AllKnown(db, ctx.workspace, started) && error == NotFound
            else error == InvalidInput)
      case Accepted(e, response) =>
        && (Clean(cmd) ==> Tidy(ctx.workspace, cmd.observations) && AllKnown(db, ctx.workspace, started))
        && response.ReadResult? && response.readId == cmd.readId
        && (if Clean(cmd) && OnRecord(db, ctx.workspace, started) && Restates(started, cmd.observations)
            then response.readStatus == ReadCompleted && response.evidence == Some(db.nextUuid)
            else response.readStatus == ReadFailed && response.evidence == None)
  {
    hide Canonical, CurrentObservations, SameStates, RecordRead, FinishRead, Restates, OnRecord, AllKnown, Tidy, Holds, KeySet;
    if Addressed(db, ctx, cmd) {
      var started := db.readAttempts[cmd.readId].started;
      CanonicalExact(ctx.workspace, cmd.observations);
      CurrentExact(db, ctx.workspace, started);
      var reported := Canonical(ctx.workspace, cmd.observations);
      if reported.Ok? { SameStatesExact(ctx.workspace, started, cmd.observations, reported.value); }
    }
  }

  /** What it takes for a read to count. */
  ghost predicate Counts(db: Database, ctx: Context, cmd: Command)
    requires cmd.ReadComplete?
  {
    && Addressed(db, ctx, cmd) && Clean(cmd) && Tidy(ctx.workspace, cmd.observations)
    && OnRecord(db, ctx.workspace, db.readAttempts[cmd.readId].started)
    && Restates(db.readAttempts[cmd.readId].started, cmd.observations)
  }

  lemma CountsMeans(db: Database, ctx: Context, cmd: Command)
    requires cmd.ReadComplete?
    ensures Counts(db, ctx, cmd) <==>
              && CompleteRead(db, ctx, cmd).Accepted?
              && CompleteRead(db, ctx, cmd).response == ReadResult(cmd.readId, ReadCompleted, Some(db.nextUuid))
  {
    hide CompleteRead, OnRecord, Restates, Tidy, AllKnown;
    ReadAnswer(db, ctx, cmd);
    if Counts(db, ctx, cmd) { RecordedKnown(db, ctx.workspace, db.readAttempts[cmd.readId].started); }
  }

  lemma RecordedKnown(db: Database, workspace: Name, os: ObservationSet)
    requires OnRecord(db, workspace, os)
    ensures AllKnown(db, workspace, os)
  {
  }

  // --------------------------------------------------------------- effects

  /** Nothing spoils what a read found out about one resource: the task has no read intent
      on it from a read begun later, and no other task is writing on an overlapping key. */
  ghost predicate Unspoilt(intents: map<IntentKey, Intent>, leases: map<Uuid, Lease>, t: TaskKey, o: Observation,
                           startedAt: Instant) {
    && (forall k | k in intents && k.task == t && k.id == o.key.id && intents[k].status == Held ::
          intents[k].readStartedAt <= startedAt)
    && (forall b, i | b in leases && leases[b].task != t && i in leases[b].slots && i in leases[b].resources ::
          !Overlap(o.key, ResourceKey(leases[b].task.workspace, i, leases[b].resources[i])))
  }

  lemma CountsExact(db: Database, t: TaskKey, o: Observation, startedAt: Instant)
    ensures ReadCounts(db, t, o, startedAt) <==> Unspoilt(db.intents, db.leases, t, o, startedAt)
  {
    hide Overlap;
    assert forall k: IntentKey :: k.task == t && k.id == o.key.id ==> k == IntentKey(t, o.key.id);
  }

  /** The evidence a read that counts leaves: one row for each resource it started from,
      valid unless spoilt, and nothing else. */
  ghost predicate EvidenceFiled(d: Database, e: Database, id: Uuid, t: TaskKey, os: ObservationSet, startedAt: Instant) {
    && (forall k :: k in e.evidence <==> k in d.evidence || (k.evidence == id && k.id in os))
    && (forall k | k in e.evidence && !(k.evidence == id && k.id in os) :: e.evidence[k] == d.evidence[k])
    && (forall i | i in os :: EvidenceKey(id, i) in e.evidence
          && e.evidence[EvidenceKey(id, i)] == Evidence(t, FromRead(startedAt), os[i], Unspoilt(d.intents, d.leases, t, os[i], startedAt)))
  }

  ghost predicate TakesIntent(intents: map<IntentKey, Intent>, leases: map<Uuid, Lease>, t: TaskKey, o: Observation,
                              startedAt: Instant) {
    && Unspoilt(intents, leases, t, o, startedAt)
    && (forall k | k in intents && k.task == t && k.id == o.key.id :: intents[k].readStartedAt <= startedAt)
  }

  /** The read intents it takes: on each unspoilt resource where no later read has one. */
  ghost predicate IntentsTaken(d: Database, e: Database, id: Uuid, t: TaskKey, os: ObservationSet, startedAt: Instant) {
    forall k :: IntentTaken(d, e, id, t, os, startedAt, k)
  }

  ghost predicate IntentTaken(d: Database, e: Database, id: Uuid, t: TaskKey, os: ObservationSet, startedAt: Instant,
                              k: IntentKey) {
    if k.task == t && k.id in os && TakesIntent(d.intents, d.leases, t, os[k.id], startedAt)
    then k in e.intents && e.intents[k] == Intent(id, Held, startedAt)
    else if k in d.intents then k in e.intents && e.intents[k] == d.intents[k]
    else k !in e.intents
  }

  lemma TakesExact(db: Database, t: TaskKey, o: Observation, startedAt: Instant)
    ensures IntentMoves(db, t, o, startedAt) <==> TakesIntent(db.intents, db.leases, t, o, startedAt)
  {
    hide ReadCounts, Unspoilt;
    CountsExact(db, t, o, startedAt);
    assert forall k: IntentKey :: k.task == t && k.id == o.key.id ==> k == IntentKey(t, o.key.id);
  }

  lemma RecordFilesEvidence(db: Database, t: TaskKey, os: ObservationSet, startedAt: Instant)
    ensures EvidenceFiled(db, RecordRead(db, t, os, startedAt), db.nextUuid, t, os, startedAt)
  {
    hide ReadCounts, Unspoilt, IntentMoves, HoldUnder;
    forall i | i in os ensures ReadCounts(db, t, os[i], startedAt) <==> Unspoilt(db.intents, db.leases, t, os[i], startedAt) {
      CountsExact(db, t, os[i], startedAt);
    }
  }

  lemma RecordTakesIntents(db: Database, t: TaskKey, os: ObservationSet, startedAt: Instant)
    ensures IntentsTaken(db, RecordRead(db, t, os, startedAt), db.nextUuid, t, os, startedAt)
  {
    hide ReadCounts, IntentMoves, TakesIntent, FileUnder, HoldUnder;
    var taken := set i | i in os && IntentMoves(db, t, os[i], startedAt);
    var added := HoldUnder(t, taken, Intent(db.nextUuid, Held, startedAt));
    forall k: IntentKey
      ensures IntentTaken(db, RecordRead(db, t, os, startedAt), db.nextUuid, t, os, startedAt, k)
    {
      if k.id in os { TakesExact(db, t, os[k.id], startedAt); }
      assert k in added <==> k.task == t && k.id in taken;
    }
  }

  /** What completing a read does to the tables. */
  lemma ReadLeaves(db: Database, ctx: Context, cmd: Command)
    requires cmd.ReadComplete? && CompleteRead(db, ctx, cmd).Accepted?
    ensures cmd.readId in db.readAttempts
    ensures var e, status := CompleteRead(db, ctx, cmd).db, CompleteRead(db, ctx, cmd).response.readStatus;
            var read := db.readAttempts[cmd.readId];
            && e.readAttempts == db.readAttempts[cmd.readId := read.(status := status)]
            && e == db.(readAttempts := e.readAttempts, evidence := e.evidence, intents := e.intents, nextUuid := e.nextUuid)
            && (status == ReadFailed ==> e == db.(readAttempts := e.readAttempts))
            && (status == ReadCompleted ==>
                  && EvidenceFiled(db, e, db.nextUuid, ctx.Task(), read.started, read.startedAt)
                  && IntentsTaken(db, e, db.nextUuid, ctx.Task(), read.started, read.startedAt))
  {
    hide Canonical, CurrentObservations, SameStates, RecordRead, EvidenceFiled, IntentsTaken, OnRecord, AllKnown;
    hide Tidy, Restates;
    ReadAnswer(db, ctx, cmd);
    var r := CompleteRead(db, ctx, cmd);
    var read := db.readAttempts[cmd.readId];
    if r.response.readStatus == ReadCompleted {
      CurrentExact(db, ctx.workspace, read.started);
      DoneRecords(db, cmd.readId, ctx.Task(), read.started, read.startedAt);
      assert r.db == RecordRead(FinishRead(db, cmd.readId, ReadCompleted), ctx.Task(), read.started, read.startedAt);
    }
  }

  lemma DoneRecords(db: Database, id: Name, t: TaskKey, os: ObservationSet, startedAt: Instant)
    requires id in db.readAttempts
    ensures var e := RecordRead(FinishRead(db, id, ReadCompleted), t, os, startedAt);
            && e == db.(readAttempts := db.readAttempts[id := db.readAttempts[id].(status := ReadCompleted)],
                        evidence := e.evidence, intents := e.intents, nextUuid := e.nextUuid)
            && EvidenceFiled(db, e, db.nextUuid, t, os, startedAt)
            && IntentsTaken(db, e, db.nextUuid, t, os, startedAt)
  {
    hide RecordRead, EvidenceFiled, IntentsTaken;
    var done := FinishRead(db, id, ReadCompleted);
    var e := RecordRead(done, t, os, startedAt);
    RecordFilesEvidence(done, t, os, startedAt);
    RecordTakesIntents(done, t, os, startedAt);
    RecordFrame(done, t, os, startedAt);
    SameEvidenceFiled(db, done, e, db.nextUuid, t, os, startedAt);
    SameIntentsTaken(db, done, e, db.nextUuid, t, os, startedAt);
  }

  lemma RecordFrame(db: Database, t: TaskKey, os: ObservationSet, startedAt: Instant)
    ensures var e := RecordRead(db, t, os, startedAt);
            e == db.(evidence := e.evidence, intents := e.intents, nextUuid := e.nextUuid)
  {
    hide ReadCounts, IntentMoves, FileUnder, HoldUnder;
  }

  lemma SameEvidenceFiled(c: Database, d: Database, e: Database, id: Uuid, t: TaskKey, os: ObservationSet, startedAt: Instant)
    requires d.evidence == c.evidence && d.intents == c.intents && d.leases == c.leases
    requires EvidenceFiled(d, e, id, t, os, startedAt)
    ensures EvidenceFiled(c, e, id, t, os, startedAt)
  {
    hide Unspoilt;
  }

  lemma SameIntentsTaken(c: Database, d: Database, e: Database, id: Uuid, t: TaskKey, os: ObservationSet, startedAt: Instant)
    requires d.intents == c.intents && d.leases == c.leases
    requires IntentsTaken(d, e, id, t, os, startedAt)
    ensures IntentsTaken(c, e, id, t, os, startedAt)
  {
    hide TakesIntent;
    forall k ensures IntentTaken(c, e, id, t, os, startedAt, k) {
      assert IntentTaken(d, e, id, t, os, startedAt, k);
    }
  }

  // ------------------------------------------------------------------ runs

  /** A read of the client's own, active task may start once under its id and invocation. */
  lemma ReadStartAnswer(db: Database, ctx: Context, cmd: Command)
    requires cmd.ReadStart?
    ensures StartRead(db, ctx, cmd).Accepted? <==>
              && ctx.Task() in db.tasks && db.tasks[ctx.Task()].agent == ctx.agent && db.tasks[ctx.Task()].status == Active
              && cmd.readId != BLANK && cmd.invocation != BLANK && cmd.readId !in db.readAttempts
              && Tidy(ctx.workspace, cmd.observations) && cmd.observations != []
              && (forall r :: r in db.readAttempts && db.readAttempts[r].task == ctx.Task() ==>
                    db.readAttempts[r].invocation != cmd.invocation)
    ensures StartRead(db, ctx, cmd).Accepted? ==>
              StartRead(db, ctx, cmd).response == ReadResult(cmd.readId, ReadStarted, None)
  {
    hide Canonical, Sync, Synced, Tidy;
    CanonicalExact(ctx.workspace, cmd.observations);
    if Canonical(ctx.workspace, cmd.observations).Ok? {
      SizesAgree(Canonical(ctx.workspace, cmd.observations).value, cmd.observations);
    }
  }

  lemma SizesAgree(os: ObservationSet, reported: seq<Observation>)
    requires |os| == |reported|
    ensures os == map[] <==> reported == []
  {
  }

  /** A read starts from what the client reports, and the projection then shows it. */
  lemma ReadBegins(db: Database, ctx: Context, cmd: Command)
    requires cmd.ReadStart? && StartRead(db, ctx, cmd).Accepted?
    ensures Tidy(ctx.workspace, cmd.observations) && cmd.observations != []
    ensures var e := StartRead(db, ctx, cmd).db;
            && cmd.readId !in db.readAttempts && cmd.readId in e.readAttempts
            && e.readAttempts[cmd.readId].task == ctx.Task()
            && e.readAttempts[cmd.readId].invocation == cmd.invocation
            && e.readAttempts[cmd.readId].startedAt == ctx.observedAt && e.readAttempts[cmd.readId].status == ReadStarted
            && Restates(e.readAttempts[cmd.readId].started, cmd.observations)
            && OnRecord(e, ctx.workspace, e.readAttempts[cmd.readId].started)
  {
    hide OwnerError, Canonical, Sync, Synced, Shows, Restates, OnRecord, Tidy, Holds;
    CanonicalExact(ctx.workspace, cmd.observations);
    var os := Canonical(ctx.workspace, cmd.observations).value;
    StartShows(db, ctx, cmd);
    SyncedRestates(db, ctx.workspace, os, cmd.observations);
    ShownOnRecord(StartRead(db, ctx, cmd).db, db, ctx.workspace, os, cmd.observations);
  }

  lemma SyncedRestates(db: Database, workspace: Name, os: ObservationSet, reported: seq<Observation>)
    requires Holds(workspace, reported, os)
    ensures Restates(Synced(db, os), reported)
  {
    hide NextRow;
    forall i | i in os ensures exists o :: o in reported && o.key.id == i {
      assert os[i] in reported;
    }
  }

  lemma ShownOnRecord(e: Database, db: Database, workspace: Name, os: ObservationSet, reported: seq<Observation>)
    requires Holds(workspace, reported, os) && Shows(e, workspace, Synced(db, os))
    ensures OnRecord(e, workspace, Synced(db, os))
  {
    hide NextRow;
  }

  /** Every key the first list reports is reported by the second in the same state. */
  ghost predicate Repeated(before: seq<Observation>, after: seq<Observation>) {
    forall o :: o in before ==> exists p :: p in after && p.key == o.key && p.observed == o.observed
  }

  ghost predicate SameReport(before: seq<Observation>, after: seq<Observation>) {
    Repeated(before, after) && Repeated(after, before)
  }

  lemma RestatedTwice(os: ObservationSet, before: seq<Observation>, after: seq<Observation>)
    requires Restates(os, before) && Restates(os, after)
    ensures Repeated(before, after)
  {
    forall o | o in before ensures exists p :: p in after && p.key == o.key && p.observed == o.observed {
      var p :| p in after && p.key.id == o.key.id;
      assert os[p.key.id].key == p.key;
    }
  }

  lemma RepeatedCovers(os: ObservationSet, before: seq<Observation>, after: seq<Observation>, i: ResourceId)
    requires Restates(os, before) && Repeated(before, after) && i in os
    ensures exists p :: p in after && p.key.id == i
  {
    var o :| o in before && o.key.id == i;
    var p :| p in after && p.key == o.key && p.observed == o.observed;
  }

  lemma RepeatedAgrees(os: ObservationSet, before: seq<Observation>, after: seq<Observation>, p: Observation)
    requires Restates(os, before) && Repeated(after, before) && p in after
    ensures p.key.id in os && os[p.key.id].key == p.key && os[p.key.id].observed == p.observed
  {
    var o :| o in before && o.key == p.key && o.observed == p.observed;
  }

  lemma ReportRestates(os: ObservationSet, before: seq<Observation>, after: seq<Observation>)
    requires Restates(os, before) && SameReport(before, after)
    ensures Restates(os, after)
  {
    hide Repeated;
    forall i | i in os ensures exists p :: p in after && p.key.id == i {
      RepeatedCovers(os, before, after, i);
    }
    forall p | p in after ensures p.key.id in os && os[p.key.id].key == p.key && os[p.key.id].observed == p.observed {
      RepeatedAgrees(os, before, after, p);
    }
  }

  lemma RestatesBoth(os: ObservationSet, before: seq<Observation>, after: seq<Observation>)
    requires Restates(os, before)
    ensures Restates(os, after) <==> SameReport(before, after)
  {
    hide Restates, Repeated;
    if Restates(os, after) {
      RestatedTwice(os, before, after);
      RestatedTwice(os, after, before);
    } else if SameReport(before, after) {
      ReportRestates(os, before, after);
    }
  }

  /** The rows of the reported resources are the same in both states. */
  ghost predicate RowsKept(d: Database, e: Database, workspace: Name, os: seq<Observation>) {
    forall o :: o in os ==>
      && ResourceRef(workspace, o.key.id) in d.resources && ResourceRef(workspace, o.key.id) in e.resources
      && e.resources[ResourceRef(workspace, o.key.id)] == d.resources[ResourceRef(workspace, o.key.id)]
  }

  lemma OnRecordLater(d: Database, e: Database, workspace: Name, os: ObservationSet, reported: seq<Observation>)
    requires OnRecord(d, workspace, os) && Restates(os, reported) && ResourcesEvolve(d, e)
    ensures OnRecord(e, workspace, os) <==> RowsKept(d, e, workspace, reported)
  {
    if RowsKept(d, e, workspace, reported) {
      forall i | i in os
        ensures ResourceRef(workspace, i) in e.resources
        ensures e.resources[ResourceRef(workspace, i)] == d.resources[ResourceRef(workspace, i)]
      {
        var o :| o in reported && o.key.id == i;
      }
    }
  }

  lemma SameRecord(d: Database, e: Database, workspace: Name, os: ObservationSet)
    requires e.resources == d.resources
    ensures OnRecord(d, workspace, os) <==> OnRecord(e, workspace, os)
  {
  }

  /** What is on record of a read in the tables its start leaves. */
  lemma BegunOnRecord(run: seq<Event>, i: nat)
    requires i < |run| && CarriesOut(run, i) && run[i].cmd.ReadStart?
    ensures var d, id := StateAfter(run[..i + 1]), run[i].cmd.readId;
            && id in d.readAttempts && d.readAttempts[id].task == run[i].ctx.Task()
            && Restates(d.readAttempts[id].started, run[i].cmd.observations)
            && OnRecord(d, run[i].ctx.workspace, d.readAttempts[id].started)
  {
    hide StateAfter, Execute, StartRead, Sweep, OnRecord, Restates, Tidy, Reply;
    CarriedOut(run, i);
    ReadBegins(SweptFor(run, i), run[i].ctx, run[i].cmd);
    var begun := StartRead(SweptFor(run, i), run[i].ctx, run[i].cmd).db;
    SameRecord(begun, StateAfter(run[..i + 1]), run[i].ctx.workspace, begun.readAttempts[run[i].cmd.readId].started);
  }

  /** A read begun at step `i` and ended at step `j` counts exactly if the client calls it
      clean, reports at the end the keys and states it reported at the start, and no record
      of them moved in between; otherwise the answer is that it failed. */
  lemma ReadsCount(run: seq<Event>, i: nat, j: nat)
    requires i < j < |run| && CarriesOut(run, i) && CarriesOut(run, j)
    requires run[i].cmd.ReadStart? && run[j].cmd.ReadComplete? && run[j].cmd.readId == run[i].cmd.readId
    ensures Reply(run, j).value.ReadResult? && run[j].ctx.Task() == run[i].ctx.Task()
    ensures Reply(run, j).value.readStatus ==
            if && Clean(run[j].cmd) && SameReport(run[i].cmd.observations, run[j].cmd.observations)
               && RowsKept(StateAfter(run[..i + 1]), StateAfter(run[..j]), run[i].ctx.workspace, run[i].cmd.observations)
            then ReadCompleted else ReadFailed
  {
    hide StateAfter, Execute, CompleteRead, Sweep, OnRecord, Restates, RowsKept, SameReport, Tidy, AllKnown;
    hide ResourcesEvolve, Reply;
    BegunOnRecord(run, i);
    CarriedOut(run, j);
    var id, w := run[i].cmd.readId, run[i].ctx.workspace;
    var d, g := StateAfter(run[..i + 1]), StateAfter(run[..j]);
    ReadAnswer(SweptFor(run, j), run[j].ctx, run[j].cmd);
    SweepReads(g, run[j].ctx.observedAt);
    BetweenReads(run, i + 1, j, j, id);
    var started := d.readAttempts[id].started;
    SameRecord(SweptFor(run, j), g, w, started);
    OnRecordLater(d, g, w, started, run[i].cmd.observations);
    RestatesBoth(started, run[i].cmd.observations, run[j].cmd.observations);
  }
}
