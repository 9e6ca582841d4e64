/** The migration of a legacy database to the second generation: a staged sequence of
    file steps recorded in a manifest, and the recovery that runs when an earlier
    attempt was cut short (crates/stateful-store/src/migration_v2.rs). The machine may
    stop after any step, also within recovery. */
module Migration {
  import opened Basics

  datatype Base = Main | Backup | Manifest | ManifestTmp | Candidate | Recovery | Restore

  datatype Suffix = Wal | Shm | Journal

  datatype FileName = File(base: Base) | Side(of: Base, suffix: Suffix)

  datatype Generation = Old | New

  datatype Stage =
    | BackupPending | BackupCreated | OldCheckpointed | OldQuarantined | NewValidated | NewPromoted | ParentSynced

  type Data = nat
  const FRESH: Data := 0

  /** A database file holds the committed data unless a log beside it holds newer. */
  datatype Content =
    | Blank
    | Partial
    | Database(generation: Generation, data: Data)
    | Log(logOf: Generation, newer: Data)
    | Marker(stage: Stage)

  type Files = map<FileName, Content>

  // ---------------------------------------------------------------- steps

  /** One durable step of the file system or of the database engine. */
  datatype Op =
    | Remove(file: FileName)
    | Create(file: FileName)
    | Write(file: FileName, content: Content)
    | Move(source: FileName, target: FileName)

  /** A step that can be carried out: nothing is created over an existing file, and
      only what is there is written or renamed. */
  predicate Enabled(fs: Files, op: Op) {
    match op
    case Remove(_) => true
    case Create(f) => f !in fs
    case Write(f, _) => f in fs
    case Move(s, _) => s in fs
  }

  /** Removing skips a file that is not there; a move replaces its target. */
  function Apply(fs: Files, op: Op): Files {
    match op
    case Remove(f) => fs - {f}
    case Create(f) => fs[f := Blank]
    case Write(f, c) => fs[f := c]
    case Move(s, t) => if s in fs then (fs - {s})[t := fs[s]] else fs
  }

  function ApplyAll(fs: Files, ops: seq<Op>): Files
    decreases |ops|
  {
    if ops == [] then fs else ApplyAll(Apply(fs, ops[0]), ops[1..])
  }

  /** What is on disk when the machine stops after `steps` steps, and how many are left. */
  function Exec(fs: Files, steps: nat, ops: seq<Op>): (Files, nat)
    decreases |ops|
  {
    if ops == [] || steps == 0 then (fs, steps) else Exec(Apply(fs, ops[0]), steps - 1, ops[1..])
  }

  // ------------------------------------------------------------ procedures

  function RemoveSet(b: Base): seq<Op> {
    [Remove(File(b)), Remove(Side(b, Wal)), Remove(Side(b, Shm)), Remove(Side(b, Journal))]
  }

  /** The manifest is written aside and moved into place. */
  function Persist(stage: Stage): seq<Op> {
    [Remove(File(ManifestTmp)), Create(File(ManifestTmp)), Write(File(ManifestTmp), Partial),
     Write(File(ManifestTmp), Marker(stage)), Move(File(ManifestTmp), File(Manifest))]
  }

  function Clear(): seq<Op> { [Remove(File(Manifest)), Remove(File(ManifestTmp))] }

  /** The data a reader of the main file sees. */
  function Reading(fs: Files): Option<Data> {
    if File(Main) !in fs || !fs[File(Main)].Database? then None
    else if Side(Main, Wal) in fs && fs[Side(Main, Wal)].Log? then Some(fs[Side(Main, Wal)].newer)
    else Some(fs[File(Main)].data)
  }

  function CreateBackup(data: Data): seq<Op> {
    [Remove(File(Backup)), Create(File(Backup)), Write(File(Backup), Partial), Write(File(Backup), Database(Old, data))]
  }

  /** The log is absorbed into the main file and the connection closed. */
  function Checkpoint(fs: Files, data: Data): seq<Op> {
    [Write(File(Main), Partial), Write(File(Main), Database(Old, data))]
    + (if Side(Main, Wal) in fs then [Write(Side(Main, Wal), Blank)] else [])
    + [Remove(Side(Main, Wal)), Remove(Side(Main, Shm))]
  }

  function MoveIfExists(fs: Files, source: FileName, target: FileName): seq<Op> {
    if source in fs then [Remove(target), Move(source, target)] else []
  }

  function Quarantine(fs: Files): seq<Op> {
    MoveIfExists(fs, File(Main), File(Recovery))
    + MoveIfExists(fs, Side(Main, Wal), Side(Recovery, Wal))
    + MoveIfExists(fs, Side(Main, Shm), Side(Recovery, Shm))
    + MoveIfExists(fs, Side(Main, Journal), Side(Recovery, Journal))
  }

  function CreateCandidate(): seq<Op> {
    RemoveSet(Candidate)
    + [Create(File(Candidate)), Create(Side(Candidate, Wal)), Write(Side(Candidate, Wal), Log(New, FRESH)),
       Write(File(Candidate), Partial), Write(File(Candidate), Database(New, FRESH)),
       Remove(Side(Candidate, Wal)), Remove(Side(Candidate, Shm)), Remove(Side(Candidate, Journal))]
  }

  /** The phases of the migration; the marker in the manifest always names a phase that is complete. */
  function MigratePhases(data: Data): (phases: seq<Phase>)
    ensures |phases| == 14
  {
    [Fixed(Persist(BackupPending)), Fixed(CreateBackup(data)), Fixed(Persist(BackupCreated)),
     CheckpointMain(data), Fixed(Persist(OldCheckpointed)),
     QuarantineMain, Fixed(Persist(OldQuarantined)),
     Fixed(CreateCandidate()), Fixed(Persist(NewValidated)),
     Fixed([Move(File(Candidate), File(Main))]), Fixed(Persist(NewPromoted)), Fixed(Persist(ParentSynced)),
     Fixed(RemoveSet(Recovery)), Fixed(Clear())]
  }

  /** A phase is a list of steps, or one that looks at the files first. */
  datatype Phase = Fixed(ops: seq<Op>) | CheckpointMain(data: Data) | QuarantineMain {
    function Ops(fs: Files): seq<Op> {
      match this
      case Fixed(ops) => ops
      case CheckpointMain(data) => Checkpoint(fs, data)
      case QuarantineMain => Quarantine(fs)
    }
  }

  /** The steps of the phases, each seen from where the one before leaves the files. */
  function Steps(fs: Files, phases: seq<Phase>): seq<Op>
    decreases |phases|
  {
    if phases == [] then []
    else
      var ops := phases[0].Ops(fs);
      ops + Steps(ApplyAll(fs, ops), phases[1..])
  }

  function RestoreOps(backup: Content): seq<Op> {
    RemoveSet(Main) + RemoveSet(Candidate) + RemoveSet(Recovery) + RemoveSet(Restore)
    + [Create(File(Restore)), Write(File(Restore), Partial), Write(File(Restore), backup),
       Move(File(Restore), File(Main))]
    + Clear()
  }

  function DiscardOps(): seq<Op> {
    RemoveSet(Candidate) + RemoveSet(Recovery) + RemoveSet(Restore) + [Remove(File(Backup))] + Clear()
  }

  /** What recovery does about an interrupted attempt; `None` where it refuses. */
  function Recover(fs: Files): Option<seq<Op>> {
    if File(Manifest) !in fs then Some([])
    else if !fs[File(Manifest)].Marker? then None
    else if fs[File(Manifest)].stage.BackupPending? then
      if File(Main) !in fs then None else Some(DiscardOps())
    else if File(Backup) !in fs then None
    else Some(RestoreOps(fs[File(Backup)]))
  }

  /** What opening does about the main file; `None` where it refuses. */
  function Open(fs: Files): Option<seq<Op>> {
    if File(Main) !in fs then
      if Side(Main, Wal) in fs || Side(Main, Shm) in fs || Side(Main, Journal) in fs then None
      else Some([Create(File(Main)), Write(File(Main), Database(New, FRESH))])
    else match fs[File(Main)]
      case Database(New, _) => Some([])
      case Database(Old, _) => Some(Steps(fs, MigratePhases(Reading(fs).value)))
      case Blank => Some([Write(File(Main), Database(New, FRESH))])
      case _ => None
  }

  /** One attempt to open the database: recovery first, then the main file. */
  function Attempt(fs: Files): Option<seq<Op>> {
    var recovery := Recover(fs);
    if recovery.None? then None
    else
      var open := Open(ApplyAll(fs, recovery.value));
      if open.None? then None else Some(recovery.value + open.value)
  }

  // -------------------------------------------------------------- safety

  predicate SidesOf(fs: Files, g: Generation) {
    forall s :: Side(Main, s) in fs ==> fs[Side(Main, s)].Blank? || (fs[Side(Main, s)].Log? && fs[Side(Main, s)].logOf == g)
  }

  predicate BackedUp(fs: Files, data: Data) {
    File(Backup) in fs && fs[File(Backup)] == Database(Old, data)
  }

  /** The legacy database is in place, with no log but its own. */
  predicate LegacyInPlace(fs: Files, data: Data) {
    File(Main) in fs && fs[File(Main)].Database? && fs[File(Main)].generation == Old && SidesOf(fs, Old)
    && Reading(fs) == Some(data)
  }

  /** The new database is in place, with no log but its own, and the old one is safe. */
  predicate Migrated(fs: Files, data: Data) {
    File(Main) in fs && fs[File(Main)].Database? && fs[File(Main)].generation == New && SidesOf(fs, New)
    && BackedUp(fs, data)
  }

  /** What holds after every step: without a manifest the main file is complete and
      of one generation; with one, the manifest says where the legacy data is. */
  predicate Safe(fs: Files, data: Data) {
    if File(Manifest) !in fs then LegacyInPlace(fs, data) || Migrated(fs, data)
    else
      && fs[File(Manifest)].Marker?
      && (if fs[File(Manifest)].stage.BackupPending? then LegacyInPlace(fs, data) else BackedUp(fs, data))
  }

  /** Every step of the list can be taken. */
  ghost predicate AllEnabled(fs: Files, ops: seq<Op>)
    decreases |ops|
  {
    ops != [] ==> Enabled(fs, ops[0]) && AllEnabled(Apply(fs, ops[0]), ops[1..])
  }

  /** The files are safe wherever the steps are cut short. */
  ghost predicate SafeAlong(fs: Files, ops: seq<Op>, data: Data)
    decreases |ops|
  {
    Safe(fs, data) && (ops != [] ==> SafeAlong(Apply(fs, ops[0]), ops[1..], data))
  }
}
