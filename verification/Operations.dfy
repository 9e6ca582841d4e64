/** Observations of resources, the file operations of a write, and the checks
    that decide whether a set of observations may start an operation and whether
    a reported post-state completes it (crates/stateful-core/src/resource.rs). */
module Operations {
  import opened Basics
  import opened Resources

  datatype ObjectKind = RegularFile | Directory | Symlink

  /** The recorded state of an object, an entry or a directory tree. */
  datatype ObservedState =
    | AbsentObject
    | PresentObject(objectKind: ObjectKind, digest: string, byteLen: nat)
    | AbsentEntry
    | PresentEntry(entryKind: ObjectKind, device: nat, inode: nat, empty: Option<bool>)
    | AbsentTree
    | PresentTree(treeDevice: nat, treeInode: nat, snapshot: string, entryCount: nat)
  {
    function Kind(): ResourceKind {
      if AbsentObject? || PresentObject? then Object
      else if AbsentEntry? || PresentEntry? then Entry
      else DirectoryTree
    }
  }

  datatype Observation = Observation(key: ResourceKey, observed: ObservedState, generation: nat) {
    predicate KindMatches() { observed.Kind() == key.id.kind }
  }

  datatype Operation =
    | Create(path: string)
    | Update(path: string)
    | Delete(path: string, entryOnly: bool)
    | Rename(oldPath: string, newPath: string, entryOnly: bool)
    | Move(oldPath: string, newPath: string, entryOnly: bool)
    | Hardlink(oldPath: string, newPath: string)
    | Mkdir(path: string)
    | Rmdir(path: string)
    | WriteDirectory(path: string)
    | StructuredCommit(trackedPaths: seq<string>)

  datatype Fault = InvalidPath | InvalidObservation | InvalidTransition
  type Checked<+T> = Result<T, Fault>

  // ---------------------------------------------------------------- paths

  /** The text up to the first slash, and what follows it. */
  function FirstComponent(path: string): (r: (string, Option<string>))
    ensures r.1.Some? ==> path == r.0 + "/" + r.1.value
    ensures r.1.None? ==> path == r.0
    ensures '/' !in r.0
  {
    if path == "" then ("", None)
    else if path[0] == '/' then ("", Some(path[1..]))
    else
      var (head, rest) := FirstComponent(path[1..]);
      ([path[0]] + head, rest)
  }

  function Portable(path: string): (r: string)
    ensures |r| == |path|
    ensures forall i :: 0 <= i < |r| ==> r[i] == if path[i] == '\\' then '/' else path[i]
  {
    if path == "" then "" else [if path[0] == '\\' then '/' else path[0]] + Portable(path[1..])
  }

  /** Pushes the components of `path` on `stack`: `.` and empty components are
      skipped and `..` pops; popping an empty stack fails. */
  function Resolve(stack: seq<string>, path: string): Checked<seq<string>>
    decreases |path|
  {
    var (head, rest) := FirstComponent(path);
    var next :=
      if head == "" || head == "." then Ok(stack)
      else if head == ".." then
        if stack == [] then Err(InvalidPath) else Ok(stack[..|stack| - 1])
      else Ok(stack + [head]);
    if next.Err? || rest.None? then next else Resolve(next.value, rest.value)
  }

  function Join(components: seq<string>): string {
    if components == [] then ""
    else if |components| == 1 then components[0]
    else components[0] + "/" + Join(components[1..])
  }

  /** A relative path with forward slashes and no empty, `.` or `..` component. */
  function OperationPath(path: string): Checked<string> {
    var portable := Portable(path);
    if portable != "" && portable[0] == '/' then Err(InvalidPath)
    else
      var components :- Resolve([], portable);
      if components == [] then Err(InvalidPath) else Ok(Join(components))
  }

  function Decimal(n: nat): string {
    if n < 10 then [("0123456789")[n]] else Decimal(n / 10) + [("0123456789")[n % 10]]
  }

  function ObjectName(device: nat, inode: nat): string {
    "object:" + Decimal(device) + ":" + Decimal(inode)
  }

  function DirectoryName(device: nat, inode: nat): string {
    "directory:" + Decimal(device) + ":" + Decimal(inode)
  }

  /** The text after the last slash. */
  function Basename(path: string): string {
    if path == "" then ""
    else if '/' in path[1..] || path[0] == '/' then Basename(path[1..])
    else path
  }

  // --------------------------------------------------------------- lookup

  type Slot = (ResourceKind, string)

  predicate Fits(o: Observation, slot: Slot) {
    o.key.id.kind == slot.0 && o.key.path == slot.1
  }

  function Matches(os: seq<Observation>, slot: Slot): (r: seq<Observation>) {
    if os == [] then []
    else (if Fits(os[0], slot) then [os[0]] else []) + Matches(os[1..], slot)
  }

  predicate DistinctKeys(os: seq<Observation>) {
    forall i, j :: 0 <= i < j < |os| ==> os[i].key != os[j].key
  }

  function RequireShape(os: seq<Observation>, shape: seq<Slot>): Checked<()> {
    if |os| != |shape| || os == [] then Err(InvalidObservation)
    else if os[0].key.workspace == BLANK
         || (exists o :: o in os && (!o.KindMatches() || o.key.workspace != os[0].key.workspace)) then
      Err(InvalidObservation)
    else if exists s :: s in shape && |Matches(os, s)| != 1 then Err(InvalidObservation)
    else if !DistinctKeys(os) then Err(InvalidObservation)
    else if exists o :: o in os && (forall s :: s in shape ==> !Fits(o, s)) then Err(InvalidObservation)
    else Ok(())
  }

  function ObservationAt(os: seq<Observation>, slot: Slot): Checked<Observation> {
    var found := Matches(os, slot);
    if |found| == 1 then Ok(found[0]) else Err(InvalidObservation)
  }

  // ----------------------------------------------------- single resources

  function EntryNamed(o: Observation, path: string): Checked<()> {
    var suffix := ":" + Basename(path);
    if "entry:" <= o.key.id.name
       && |suffix| <= |o.key.id.name|
       && o.key.id.name[|o.key.id.name| - |suffix|..] == suffix
    then Ok(()) else Err(InvalidObservation)
  }

  function PresentEntryOf(o: Observation, path: string, kind: ObjectKind): Checked<()> {
    if !o.observed.PresentEntry? || o.observed.entryKind != kind || o.observed.empty.Some? then
      Err(InvalidObservation)
    else EntryNamed(o, path)
  }

  /** A present object of the given kind and the entry that names it. */
  function TargetIn(os: seq<Observation>, path: string, kind: ObjectKind): Checked<(Observation, Observation)> {
    var target :- ObservationAt(os, (Object, path));
    var entry :- ObservationAt(os, (Entry, path));
    if !target.observed.PresentObject? || target.observed.objectKind != kind then Err(InvalidObservation)
    else
      var _ :- PresentEntryOf(entry, path, kind);
      if target.key.id.name != ObjectName(entry.observed.device, entry.observed.inode)
      then Err(InvalidObservation) else Ok((target, entry))
  }

  function TargetKind(entryOnly: bool): ObjectKind {
    if entryOnly then Symlink else RegularFile
  }

  function Target(os: seq<Observation>, path: string, kind: ObjectKind): Checked<(Observation, Observation)> {
    var _ :- RequireShape(os, [(Object, path), (Entry, path)]);
    TargetIn(os, path, kind)
  }

  function AbsentEntryIn(os: seq<Observation>, path: string): Checked<Observation> {
    var entry :- ObservationAt(os, (Entry, path));
    if !entry.observed.AbsentEntry? then Err(InvalidObservation)
    else
      var _ :- EntryNamed(entry, path);
      Ok(entry)
  }

  function AbsentEntryAlone(os: seq<Observation>, path: string): Checked<Observation> {
    var _ :- RequireShape(os, [(Entry, path)]);
    AbsentEntryIn(os, path)
  }

  function TreeIn(os: seq<Observation>, path: string): Checked<Observation> {
    var tree :- ObservationAt(os, (DirectoryTree, path));
    if !tree.observed.PresentTree?
       || tree.key.id.name != DirectoryName(tree.observed.treeDevice, tree.observed.treeInode)
    then Err(InvalidObservation) else Ok(tree)
  }

  function TreeAlone(os: seq<Observation>, path: string): Checked<Observation> {
    var _ :- RequireShape(os, [(DirectoryTree, path)]);
    TreeIn(os, path)
  }

  /** An empty directory: its tree and its entry. */
  function EmptyDirectory(os: seq<Observation>, path: string): Checked<(Observation, Observation)> {
    var _ :- RequireShape(os, [(DirectoryTree, path), (Entry, path)]);
    var tree :- TreeIn(os, path);
    var entry :- ObservationAt(os, (Entry, path));
    if !entry.observed.PresentEntry? then Err(InvalidObservation)
    else if entry.observed.entryKind != Directory
         || tree.observed.treeDevice != entry.observed.device
         || tree.observed.treeInode != entry.observed.inode
         || entry.observed.empty != Some(tree.observed.entryCount == 0)
    then Err(InvalidObservation)
    else if tree.observed.entryCount != 0 then Err(InvalidObservation)
    else
      var _ :- EntryNamed(entry, path);
      Ok((tree, entry))
  }

  // -------------------------------------------------- structured commits

  function UniquePaths(paths: seq<string>): Checked<seq<string>> {
    if paths == [] then Ok([])
    else
      var front :- UniquePaths(paths[..|paths| - 1]);
      var last :- OperationPath(paths[|paths| - 1]);
      if last in front then Err(InvalidObservation) else Ok(front + [last])
  }

  /** One slot for an absent tracked path, two for a present one. */
  function CommitSlots(os: seq<Observation>, paths: seq<string>): Checked<seq<Slot>> {
    if paths == [] then Ok([])
    else
      var front :- CommitSlots(os, paths[..|paths| - 1]);
      var path := paths[|paths| - 1];
      if path == ".git" then Err(InvalidObservation)
      else
        var entry :- ObservationAt(os, (Entry, path));
        if entry.observed.AbsentEntry? then Ok(front + [(Entry, path)])
        else if entry.observed.PresentEntry? && entry.observed.entryKind == RegularFile
        then Ok(front + [(Entry, path), (Object, path)])
        else Err(InvalidObservation)
  }

  predicate TrackedFileValid(os: seq<Observation>, slots: seq<Slot>, path: string) {
    if (Object, path) in slots then TargetIn(os, path, RegularFile).Ok? else AbsentEntryIn(os, path).Ok?
  }

  const GIT := ".git"

  function CommitStart(trackedPaths: seq<string>, os: seq<Observation>): Checked<()> {
    if trackedPaths == [] then Err(InvalidObservation)
    else
      var paths :- UniquePaths(trackedPaths);
      var slots :- CommitSlots(os, paths);
      var _ :- RequireShape(os, slots + [(DirectoryTree, GIT)]);
      if exists p :: p in paths && !TrackedFileValid(os, slots, p) then Err(InvalidObservation)
      else
        var _ :- TreeIn(os, GIT);
        Ok(())
  }

  predicate SameState(left: Observation, right: Observation) {
    left.key == right.key && left.observed == right.observed
  }

  function CommitTransition(start: seq<Observation>, expected: seq<Observation>): Checked<()> {
    var before :- TreeIn(start, GIT);
    var after :- TreeIn(expected, GIT);
    if before.key != after.key then Err(InvalidTransition)
    else if (before.observed.treeDevice, before.observed.treeInode)
         != (after.observed.treeDevice, after.observed.treeInode) then Err(InvalidTransition)
    else if before.observed.snapshot == after.observed.snapshot then Err(InvalidTransition)
    else if exists o :: o in start && o.key != after.key && (forall c :: c in expected ==> !SameState(c, o))
    then Err(InvalidTransition)
    else Ok(())
  }

  // ----------------------------------------------------------- operations

  function ValidateOperationStart(op: Operation, os: seq<Observation>): Checked<()> {
    match op
    case Create(path) =>
      var p :- OperationPath(path);
      var _ :- AbsentEntryAlone(os, p);
      Ok(())
    case Mkdir(path) =>
      var p :- OperationPath(path);
      var _ :- AbsentEntryAlone(os, p);
      Ok(())
    case Update(path) =>
      var p :- OperationPath(path);
      var _ :- Target(os, p, RegularFile);
      Ok(())
    case Delete(path, entryOnly) =>
      var p :- OperationPath(path);
      var _ :- Target(os, p, TargetKind(entryOnly));
      Ok(())
    case Rename(oldPath, newPath, entryOnly) => ValidateRelocationStart(oldPath, newPath, TargetKind(entryOnly), os)
    case Move(oldPath, newPath, entryOnly) => ValidateRelocationStart(oldPath, newPath, TargetKind(entryOnly), os)
    case Hardlink(oldPath, newPath) => ValidateRelocationStart(oldPath, newPath, RegularFile, os)
    case Rmdir(path) =>
      var p :- OperationPath(path);
      var _ :- EmptyDirectory(os, p);
      Ok(())
    case WriteDirectory(path) =>
      var p :- OperationPath(path);
      var _ :- TreeAlone(os, p);
      Ok(())
    case StructuredCommit(trackedPaths) => CommitStart(trackedPaths, os)
  }

  /** A present source and an absent destination at a different path. */
  function ValidateRelocationStart(oldPath: string, newPath: string, kind: ObjectKind, os: seq<Observation>): Checked<()> {
    var old_ :- OperationPath(oldPath);
    var new_ :- OperationPath(newPath);
    if old_ == new_ then Err(InvalidObservation)
    else
      var _ :- RequireShape(os, [(Object, old_), (Entry, old_), (Entry, new_)]);
      var _ :- TargetIn(os, old_, kind);
      var _ :- AbsentEntryIn(os, new_);
      Ok(())
  }

  function RequireSameResource(left: Observation, right: Observation): Checked<()> {
    if left.key == right.key then Ok(()) else Err(InvalidTransition)
  }

  function ValidateRelocation(oldPath: string, newPath: string, kind: ObjectKind,
                              start: seq<Observation>, expected: seq<Observation>): Checked<()> {
    var old_ :- OperationPath(oldPath);
    var new_ :- OperationPath(newPath);
    var (startObject, startEntry) :- TargetIn(start, old_, kind);
    var destinationStart :- AbsentEntryIn(start, new_);
    var _ :- RequireShape(expected, [(Object, new_), (Entry, old_), (Entry, new_)]);
    var (postObject, destinationPost) :- TargetIn(expected, new_, kind);
    var sourcePost :- AbsentEntryIn(expected, old_);
    if startObject.key.id.name != postObject.key.id.name then Err(InvalidTransition)
    else
      var _ :- RequireSameResource(startEntry, sourcePost);
      RequireSameResource(destinationStart, destinationPost)
  }

  function ValidateHardlink(oldPath: string, newPath: string,
                            start: seq<Observation>, expected: seq<Observation>): Checked<()> {
    var old_ :- OperationPath(oldPath);
    var new_ :- OperationPath(newPath);
    var (startObject, startEntry) :- TargetIn(start, old_, RegularFile);
    var destinationStart :- AbsentEntryIn(start, new_);
    var _ :- RequireShape(expected, [(Object, old_), (Entry, old_), (Entry, new_)]);
    var (postObject, sourcePost) :- TargetIn(expected, old_, RegularFile);
    var destinationPost :- ObservationAt(expected, (Entry, new_));
    var _ :- PresentEntryOf(destinationPost, new_, RegularFile);
    var _ :- RequireSameResource(startObject, postObject);
    var _ :- RequireSameResource(startEntry, sourcePost);
    var _ :- RequireSameResource(destinationStart, destinationPost);
    if postObject.key.id.name != ObjectName(destinationPost.observed.device, destinationPost.observed.inode)
    then Err(InvalidTransition) else Ok(())
  }

  function ValidateExpectedTransition(op: Operation, start: seq<Observation>, expected: seq<Observation>): Checked<()> {
    match op
    case Create(path) =>
      var p :- OperationPath(path);
      var before :- AbsentEntryAlone(start, p);
      var (_, after) :- Target(expected, p, RegularFile);
      RequireSameResource(before, after)
    case Update(path) =>
      var p :- OperationPath(path);
      var (startObject, startEntry) :- Target(start, p, RegularFile);
      var (postObject, postEntry) :- Target(expected, p, RegularFile);
      var _ :- RequireSameResource(startEntry, postEntry);
      if startObject.key.id.name == postObject.key.id.name && startObject.observed == postObject.observed
      then Err(InvalidTransition) else Ok(())
    case Delete(path, entryOnly) =>
      var p :- OperationPath(path);
      var (_, before) :- Target(start, p, TargetKind(entryOnly));
      var after :- AbsentEntryAlone(expected, p);
      RequireSameResource(before, after)
    case Rename(oldPath, newPath, entryOnly) =>
      ValidateRelocation(oldPath, newPath, TargetKind(entryOnly), start, expected)
    case Move(oldPath, newPath, entryOnly) =>
      ValidateRelocation(oldPath, newPath, TargetKind(entryOnly), start, expected)
    case Hardlink(oldPath, newPath) => ValidateHardlink(oldPath, newPath, start, expected)
    case Mkdir(path) =>
      var p :- OperationPath(path);
      var before :- AbsentEntryAlone(start, p);
      var (_, after) :- EmptyDirectory(expected, p);
      RequireSameResource(before, after)
    case Rmdir(path) =>
      var p :- OperationPath(path);
      var (_, before) :- EmptyDirectory(start, p);
      var after :- AbsentEntryAlone(expected, p);
      RequireSameResource(before, after)
    case WriteDirectory(path) =>
      var p :- OperationPath(path);
      var before :- TreeAlone(start, p);
      var after :- TreeAlone(expected, p);
      var _ :- RequireSameResource(before, after);
      if (before.observed.treeDevice, before.observed.treeInode)
         != (after.observed.treeDevice, after.observed.treeInode)
      then Err(InvalidTransition) else Ok(())
    case StructuredCommit(trackedPaths) =>
      var _ :- CommitStart(trackedPaths, expected);
      CommitTransition(start, expected)
  }

  predicate EqualAsSet(expected: seq<Observation>, actual: seq<Observation>) {
    && |expected| == |actual|
    && forall o :: o in expected ==> exists c :: c in actual && SameState(c, o)
  }

  function ValidateOperationTransition(op: Operation, start: seq<Observation>,
                                       expected: seq<Observation>, actual: seq<Observation>): Checked<()> {
    var _ :- ValidateOperationStart(op, start);
    var _ :- ValidateExpectedTransition(op, start, expected);
    if EqualAsSet(expected, actual) then Ok(()) else Err(InvalidTransition)
  }
}
