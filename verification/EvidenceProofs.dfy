/** Recording observations and evidence keeps the invariant: valid evidence shows
    the recorded state, and no valid read overlaps a peer's write in flight. */
module EvidenceProofs {
  import opened Basics
  import opened Resources
  import opened Tables
  import opened ReadEvidence
  import opened Invariants
  import opened Reductions

  /** Tasks, leases, requests and attempts stay as they are. */
  ghost predicate CoreSame(d: Database, e: Database) {
    && e.tasks == d.tasks && e.leases == d.leases && e.requests == d.requests && e.attempts == d.attempts
    && e.queueSequence == d.queueSequence && d.nextUuid <= e.nextUuid
  }

  lemma CoreOwned(d: Database, e: Database)
    requires CoreSame(d, e) && Owned(d)
    ensures Owned(e)
  {
  }

  lemma CoreSingles(d: Database, e: Database)
    requires CoreSame(d, e) && Singles(d) && WritesSound(d)
    ensures Singles(e) && WritesSound(e)
  {
  }

  lemma CoreApart(d: Database, e: Database)
    requires CoreSame(d, e) && Apart(d) && QueueSound(d)
    ensures Apart(e) && QueueSound(e)
  {
    hide Clash;
  }

  lemma CoreKeeps(d: Database, e: Database)
    requires Inv(d) && CoreSame(d, e) && IdsUsed(e) && EvidenceSound(e)
    ensures Inv(e)
  {
    hide *;
    Parts(d);
    CoreOwned(d, e);
    CoreSingles(d, e);
    CoreApart(d, e);
    Whole(e);
  }

  lemma RevokeSettles(db: Database, keys: set<ResourceKey>, exclude: Option<TaskKey>)
    ensures CoreSame(db, Revoke(db, keys, exclude)) && EvidenceLapses(db, Revoke(db, keys, exclude))
    ensures Revoke(db, keys, exclude).resources == db.resources && Revoke(db, keys, exclude).nextUuid == db.nextUuid
    ensures forall e, k | && e in db.evidence && k in keys && Overlap(k, db.evidence[e].observation.key)
                          && Revoke(db, keys, exclude).evidence[e].valid
              :: Some(db.evidence[e].task) == exclude
  {
    hide Overlap;
  }

  /** Valid evidence of anybody but the task spared that overlaps one of the keys. */
  ghost predicate Stricken(e: Evidence, keys: set<ResourceKey>, spared: Option<TaskKey>) {
    e.valid && (spared.None? || e.task != spared.value) && exists k :: k in keys && Overlap(k, e.observation.key)
  }

  /** Revoking strikes exactly the evidence that overlaps, and the read intents that rest on
      it; nothing else changes. */
  lemma RevokeExact(db: Database, keys: set<ResourceKey>, spared: Option<TaskKey>)
    ensures var e := Revoke(db, keys, spared);
            && e == db.(evidence := e.evidence, intents := e.intents)
            && e.evidence.Keys == db.evidence.Keys && e.intents.Keys == db.intents.Keys
            && (forall k | k in db.evidence ::
                  e.evidence[k] == if Stricken(db.evidence[k], keys, spared) then db.evidence[k].(valid := false) else db.evidence[k])
            && (forall i | i in db.intents ::
                  var k := EvidenceKey(db.intents[i].evidence, i.id);
                  e.intents[i] == if db.intents[i].status == Held && k in db.evidence && Stricken(db.evidence[k], keys, spared)
                                  then db.intents[i].(status := Revoked) else db.intents[i])
  {
    hide Overlap;
  }

  lemma LapseEvidence(d: Database, e: Database)
    requires EvidenceSound(d) && CoreSame(d, e) && EvidenceLapses(d, e) && e.resources == d.resources
    ensures EvidenceSound(e)
  {
    hide Overlap;
  }

  lemma LapseIds(d: Database, e: Database)
    requires IdsUsed(d) && CoreSame(d, e) && e.evidence.Keys == d.evidence.Keys
    ensures IdsUsed(e)
  {
  }

  lemma RevokeKeeps(db: Database, keys: set<ResourceKey>, exclude: Option<TaskKey>)
    requires Inv(db)
    ensures Inv(Revoke(db, keys, exclude))
  {
    hide IdsUsed, Owned, Singles, Apart, QueueSound, WritesSound, EvidenceSound, Revoke;
    var e := Revoke(db, keys, exclude);
    RevokeSettles(db, keys, exclude);
    LapseEvidence(db, e);
    LapseIds(db, e);
    CoreKeeps(db, e);
  }

  // ----------------------------------------------------------- projection

  /** Observations filed under their own identity and workspace. */
  ghost predicate Filed(workspace: Name, os: ObservationSet) {
    forall i :: i in os ==> os[i].key.id == i && os[i].key.workspace == workspace
  }

  /** Only rows of observed resources change; a row's generation rises by one
      exactly when its state changes. */
  ghost predicate ProjectionMoves(d: Database, e: Database, workspace: Name, os: ObservationSet) {
    && (forall r :: r in d.resources ==>
          && r in e.resources
          && e.resources[r].generation ==
             d.resources[r].generation + (if e.resources[r].state == d.resources[r].state then 0 else 1)
          && e.resources[r].path == d.resources[r].path)
    && (forall r :: r in e.resources && r !in d.resources ==>
          r.workspace == workspace && r.id in os && e.resources[r].generation == 1)
    && (forall i :: i in os ==>
          ResourceRef(workspace, i) in e.resources && e.resources[ResourceRef(workspace, i)].state == os[i].observed)
    && (forall r :: r in d.resources && !(r.workspace == workspace && r.id in os) ==> e.resources[r] == d.resources[r])
  }

  lemma SyncRows(db: Database, workspace: Name, os: ObservationSet, r: ResourceRef)
    ensures r in Sync(db, workspace, os).resources <==> r in db.resources || (r.workspace == workspace && r.id in os)
    ensures r in Sync(db, workspace, os).resources ==>
              Sync(db, workspace, os).resources[r] ==
              if r.workspace == workspace && r.id in os then NextRow(db, os[r.id]) else db.resources[r]
  {
    hide Revoke, NextRow;
    var added := map i | i in os :: ResourceRef(workspace, i) := NextRow(db, os[i]);
    assert r.workspace == workspace && r.id in os ==> r == ResourceRef(workspace, r.id) && r in added;
  }

  lemma SyncMoves(db: Database, workspace: Name, os: ObservationSet)
    requires Filed(workspace, os)
    ensures ProjectionMoves(db, Sync(db, workspace, os), workspace, os)
  {
    forall r: ResourceRef { SyncRows(db, workspace, os, r); }
    hide Sync;
  }

  lemma SyncRevokes(db: Database, workspace: Name, os: ObservationSet)
    requires Filed(workspace, os) && EvidenceRecorded(db)
    ensures forall e :: e in db.evidence && Sync(db, workspace, os).evidence[e].valid ==>
              var r := ResourceRef(db.evidence[e].task.workspace, e.id);
              r in db.resources && Sync(db, workspace, os).resources[r] == db.resources[r]
  {
    var d := Sync(db, workspace, os);
    var keys := ChangedKeys(db, os);
    RevokeSettles(db, keys, None);
    SyncMoves(db, workspace, os);
    forall e | e in db.evidence && d.evidence[e].valid
      ensures var r := ResourceRef(db.evidence[e].task.workspace, e.id);
              r in db.resources && d.resources[r] == db.resources[r]
    {
      var key := db.evidence[e].observation.key;
      var r := ResourceRef(key.workspace, e.id);
      if key.workspace == workspace && e.id in os && Changes(db, os[e.id]) {
        assert os[e.id].key in keys && Overlap(os[e.id].key, key);
      }
    }
  }

  /** Evidence that outlives a change of the projection still shows the recorded state. */
  lemma MoveEvidence(d: Database, e: Database)
    requires EvidenceSound(d) && CoreSame(d, e) && EvidenceLapses(d, e)
    requires d.resources.Keys <= e.resources.Keys
    requires forall k :: k in d.evidence && e.evidence[k].valid ==>
               var r := ResourceRef(d.evidence[k].task.workspace, k.id);
               r in d.resources && e.resources[r] == d.resources[r]
    ensures EvidenceSound(e)
  {
    hide Overlap;
  }

  lemma SyncEvidence(db: Database, workspace: Name, os: ObservationSet)
    requires EvidenceSound(db) && Filed(workspace, os)
    ensures EvidenceSound(Sync(db, workspace, os))
    ensures CoreSame(db, Sync(db, workspace, os)) && EvidenceLapses(db, Sync(db, workspace, os))
  {
    hide EvidenceCurrent, EvidenceRecorded, ReadsClearOfWrites, ResourcesRecorded, Revoke;
    RevokeSettles(db, ChangedKeys(db, os), None);
    SyncMoves(db, workspace, os);
    SyncRevokes(db, workspace, os);
    MoveEvidence(db, Sync(db, workspace, os));
  }

  lemma SyncKeeps(db: Database, workspace: Name, os: ObservationSet)
    requires Inv(db) && Filed(workspace, os)
    ensures Inv(Sync(db, workspace, os)) && CoreSame(db, Sync(db, workspace, os))
  {
    hide IdsUsed, Owned, Singles, Apart, QueueSound, WritesSound, EvidenceSound, Revoke;
    var e := Sync(db, workspace, os);
    RevokeSettles(db, ChangedKeys(db, os), None);
    SyncEvidence(db, workspace, os);
    LapseIds(db, e);
    CoreKeeps(db, e);
  }

  // ------------------------------------------------------------- evidence

  /** Fresh evidence of `t` for the observations, filed under one new id. */
  ghost predicate Files(d: Database, e: Database, t: TaskKey, os: ObservationSet) {
    && CoreSame(d, e) && e.resources == d.resources && e.nextUuid == d.nextUuid + 1
    && (forall k :: k in d.evidence && k.evidence < d.nextUuid ==> k in e.evidence && e.evidence[k] == d.evidence[k])
    && (forall k :: k in e.evidence && k !in d.evidence ==>
          && k.evidence == d.nextUuid && k.id in os
          && e.evidence[k].task == t && e.evidence[k].observation == os[k.id]
          && (e.evidence[k].valid && e.evidence[k].source.FromRead? ==> !PeerWriteInFlight(d, t, os[k.id].key)))
  }

  lemma RecordReadFiles(db: Database, t: TaskKey, os: ObservationSet, startedAt: Instant)
    ensures Files(db, RecordRead(db, t, os, startedAt), t, os)
  {
    hide PeerWriteInFlight, FileUnder;
  }

  lemma RecordOwnWriteFiles(db: Database, t: TaskKey, os: ObservationSet)
    ensures Files(db, RecordOwnWrite(db, t, os), t, os)
  {
    hide PeerWriteInFlight, FileUnder;
  }

  /** The observations are what the projection records. */
  ghost predicate Recorded(db: Database, workspace: Name, os: ObservationSet) {
    && Filed(workspace, os)
    && forall i :: i in os ==>
         && ResourceRef(workspace, i) in db.resources
         && db.resources[ResourceRef(workspace, i)].state == os[i].observed
         && db.resources[ResourceRef(workspace, i)].generation == os[i].generation
  }

  lemma FilesRecorded(d: Database, e: Database, t: TaskKey, os: ObservationSet)
    requires IdsUsed(d) && EvidenceSound(d) && Files(d, e, t, os) && Recorded(d, t.workspace, os)
    ensures IdsUsed(e) && EvidenceRecorded(e) && EvidenceCurrent(e) && ResourcesRecorded(e)
  {
    hide Overlap, PeerWriteInFlight, ReadsClearOfWrites;
  }

  lemma FilesClear(d: Database, e: Database, t: TaskKey, os: ObservationSet)
    requires IdsUsed(d) && ReadsClearOfWrites(d) && Files(d, e, t, os)
    ensures ReadsClearOfWrites(e)
  {
    hide Overlap;
    forall k, b, i | && k in e.evidence && e.evidence[k].valid && e.evidence[k].source.FromRead?
                     && b in e.leases && e.leases[b].task != e.evidence[k].task
                     && i in e.leases[b].slots && i in e.leases[b].resources
      ensures !Overlap(e.evidence[k].observation.key, Key(e.leases[b].task.workspace, e.leases[b].resources, i))
    {
      if k !in d.evidence {
        assert !PeerWriteInFlight(d, t, os[k.id].key);
      }
    }
  }

  lemma FilesKeeps(d: Database, e: Database, t: TaskKey, os: ObservationSet)
    requires Inv(d) && Files(d, e, t, os) && Recorded(d, t.workspace, os)
    ensures Inv(e)
  {
    hide IdsUsed, Owned, Singles, Apart, QueueSound, WritesSound;
    hide ResourcesRecorded, EvidenceRecorded, EvidenceCurrent, ReadsClearOfWrites, PeerWriteInFlight;
    FilesRecorded(d, e, t, os);
    FilesClear(d, e, t, os);
    CoreKeeps(d, e);
  }
}
