/** The resource projection and the read evidence that hangs on it
    (crates/stateful-store/src/store_v2.rs). */
module ReadEvidence {
  import opened Basics
  import opened Resources
  import opened Operations
  import opened Tables

  /** Valid evidence of a task other than the excluded one that overlaps one of the keys. */
  predicate Hit(e: Evidence, keys: set<ResourceKey>, exclude: Option<TaskKey>) {
    e.valid && Some(e.task) != exclude && exists k :: k in keys && Overlap(k, e.observation.key)
  }

  ghost function Revoke(db: Database, keys: set<ResourceKey>, exclude: Option<TaskKey>): Database {
    db.(intents := map i | i in db.intents ::
          var e := EvidenceKey(db.intents[i].evidence, i.id);
          if db.intents[i].status.Held? && e in db.evidence && Hit(db.evidence[e], keys, exclude)
          then db.intents[i].(status := Revoked) else db.intents[i],
        evidence := map e | e in db.evidence ::
          if Hit(db.evidence[e], keys, exclude) then db.evidence[e].(valid := false) else db.evidence[e])
  }

  // ----------------------------------------------------------- projection

  predicate Changes(db: Database, o: Observation) {
    var r := ResourceRef(o.key.workspace, o.key.id);
    r !in db.resources || db.resources[r].state != o.observed
  }

  function NextRow(db: Database, o: Observation): ResourceRow {
    var r := ResourceRef(o.key.workspace, o.key.id);
    if r !in db.resources then ResourceRow(o.key.path, o.observed, 1)
    else if db.resources[r].state != o.observed
    then db.resources[r].(state := o.observed, generation := db.resources[r].generation + 1)
    else db.resources[r]
  }

  function ChangedKeys(db: Database, os: ObservationSet): set<ResourceKey> {
    set i | i in os && Changes(db, os[i]) :: os[i].key
  }

  /** Records the observed states. A new or changed state revokes every
      overlapping piece of evidence and raises the generation. */
  ghost function Sync(db: Database, workspace: Name, os: ObservationSet): Database {
    Revoke(db, ChangedKeys(db, os), None).(
      resources :=
        db.resources
        + map i | i in os :: ResourceRef(workspace, i) := NextRow(db, os[i]))
  }

  /** The observations with the generations the projection gave them. */
  function Synced(db: Database, os: ObservationSet): (r: ObservationSet) {
    map i | i in os :: os[i].(generation := NextRow(db, os[i]).generation)
  }

  // ------------------------------------------------------------- evidence

  /** A newer read of the same resource or a peer's write in flight spoils a read. */
  predicate ReadCounts(db: Database, t: TaskKey, o: Observation, startedAt: Instant) {
    var k := IntentKey(t, o.key.id);
    && (k in db.intents && db.intents[k].status.Held? ==> db.intents[k].readStartedAt <= startedAt)
    && !PeerWriteInFlight(db, t, o.key)
  }

  predicate IntentMoves(db: Database, t: TaskKey, o: Observation, startedAt: Instant) {
    var k := IntentKey(t, o.key.id);
    && ReadCounts(db, t, o, startedAt)
    && (k in db.intents ==> startedAt >= db.intents[k].readStartedAt)
  }

  /** The rows of one new piece of evidence. */
  function FileUnder(id: Uuid, rows: map<ResourceId, Evidence>): (r: map<EvidenceKey, Evidence>)
    ensures forall k :: k in r <==> k.evidence == id && k.id in rows
    ensures forall k :: k in r ==> r[k] == rows[k.id]
  {
    var r := map i | i in rows :: EvidenceKey(id, i) := rows[i];
    assert forall k: EvidenceKey :: k.evidence == id && k.id in rows ==> k == EvidenceKey(id, k.id) && k in r;
    r
  }

  /** The intents of one task on several resources. */
  function HoldUnder(t: TaskKey, ids: set<ResourceId>, intent: Intent): (r: map<IntentKey, Intent>)
    ensures forall k :: k in r <==> k.task == t && k.id in ids
    ensures forall k :: k in r ==> r[k] == intent
  {
    var r := map i | i in ids :: IntentKey(t, i) := intent;
    assert forall k: IntentKey :: k.task == t && k.id in ids ==> k == IntentKey(t, k.id) && k in r;
    r
  }

  function RecordRead(db: Database, t: TaskKey, os: ObservationSet, startedAt: Instant): Database {
    db.(evidence := db.evidence + FileUnder(db.nextUuid, map i | i in os ::
          Evidence(t, FromRead(startedAt), os[i], ReadCounts(db, t, os[i], startedAt))),
        intents := db.intents + HoldUnder(t, (set i | i in os && IntentMoves(db, t, os[i], startedAt)),
                                          Intent(db.nextUuid, Held, startedAt)),
        nextUuid := db.nextUuid + 1)
  }

  function RecordOwnWrite(db: Database, t: TaskKey, os: ObservationSet): Database {
    db.(evidence := db.evidence + FileUnder(db.nextUuid, map i | i in os ::
          Evidence(t, FromOwnWrite, os[i], true)),
        nextUuid := db.nextUuid + 1)
  }
}
