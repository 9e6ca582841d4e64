/** What each file operation demands of the observations before and after it, said of the
    observations themselves (crates/stateful-core/src/resource.rs). */
module OperationMeaning {
  import opened Basics
  import opened Resources
  import opened Operations
  import opened OperationProofs
  import opened OperationPieces
  import opened CommitMeaning

  /** The portable form of an operation's path. */
  predicate Means(path: string, portable: string) { OperationPath(path) == Ok(portable) }

  /** An operation on the entry alone is on a symbolic link, any other on a regular file. */
  function Named(entryOnly: bool): ObjectKind { if entryOnly then Symlink else RegularFile }

  // ---------------------------------------------------------------- starts

  /** What an operation may start from. A file to update is one present regular object and
      the entry with its device and inode; a file to create or directory to make is absent;
      a relocation or a hard link has a source and a free destination elsewhere. */
  ghost predicate MayStart(op: Operation, os: seq<Observation>) {
    match op
    case Create(path) => exists p, g :: Means(path, p) && IsGap(os, g, p)
    case Mkdir(path) => exists p, g :: Means(path, p) && IsGap(os, g, p)
    case Update(path) => exists p, x, y :: Means(path, p) && IsFile(os, x, y, p, RegularFile)
    case Delete(path, entryOnly) =>
      exists p, x, y :: Means(path, p) && IsFile(os, x, y, p, Named(entryOnly))
    case Rename(from, to, entryOnly) =>
      exists p, q, x, y, g :: Means(from, p) && Means(to, q)
        && IsFileAndGap(os, x, y, g, p, q, Named(entryOnly))
    case Move(from, to, entryOnly) =>
      exists p, q, x, y, g :: Means(from, p) && Means(to, q)
        && IsFileAndGap(os, x, y, g, p, q, Named(entryOnly))
    case Hardlink(from, to) =>
      exists p, q, x, y, g :: Means(from, p) && Means(to, q) && IsFileAndGap(os, x, y, g, p, q, RegularFile)
    case Rmdir(path) => exists p, z, y :: Means(path, p) && IsEmptyDirectory(os, z, y, p)
    case WriteDirectory(path) => exists p, z :: Means(path, p) && IsTree(os, z, p)
    case StructuredCommit(tracked) => exists paths :: Tracks(tracked, paths) && CommitFits(os, paths)
  }

  lemma RelocationStartExact(from: string, to: string, kind: ObjectKind, os: seq<Observation>)
    ensures ValidateRelocationStart(from, to, kind, os).Ok? <==>
              exists p, q, x, y, g :: Means(from, p) && Means(to, q) && IsFileAndGap(os, x, y, g, p, q, kind)
  {
    hide OperationPath, RequireShape, TargetIn, AbsentEntryIn, IsFileAndGap;
    if ValidateRelocationStart(from, to, kind, os).Ok? {
      var p, q := OperationPath(from).value, OperationPath(to).value;
      var (x, y) := TargetIn(os, p, kind).value;
      var g := AbsentEntryIn(os, q).value;
      FileAndGapExact(os, p, q, kind, x, y, g);
    }
    if p, q, x, y, g :| Means(from, p) && Means(to, q) && IsFileAndGap(os, x, y, g, p, q, kind) {
      GapElsewhere(os, x, y, g, p, q, kind);
      FileAndGapExact(os, p, q, kind, x, y, g);
    }
  }

  lemma GapElsewhere(os: seq<Observation>, x: Observation, y: Observation, g: Observation, p: string, q: string, kind: ObjectKind)
    requires IsFileAndGap(os, x, y, g, p, q, kind)
    ensures p != q
  {
  }

  lemma FileStartExact(path: string, kind: ObjectKind, os: seq<Observation>)
    ensures (OperationPath(path).Ok? && Target(os, OperationPath(path).value, kind).Ok?) <==>
              exists p, x, y :: Means(path, p) && IsFile(os, x, y, p, kind)
  {
    hide OperationPath, Target, IsFile;
    if OperationPath(path).Ok? && Target(os, OperationPath(path).value, kind).Ok? {
      var (x, y) := Target(os, OperationPath(path).value, kind).value;
      FileExact(os, OperationPath(path).value, kind, x, y);
    }
    if p, x, y :| Means(path, p) && IsFile(os, x, y, p, kind) { FileExact(os, p, kind, x, y); }
  }

  lemma GapStartExact(path: string, os: seq<Observation>)
    ensures (OperationPath(path).Ok? && AbsentEntryAlone(os, OperationPath(path).value).Ok?) <==>
              exists p, g :: Means(path, p) && IsGap(os, g, p)
  {
    hide OperationPath, AbsentEntryAlone, IsGap;
    if OperationPath(path).Ok? && AbsentEntryAlone(os, OperationPath(path).value).Ok? {
      GapExact(os, OperationPath(path).value, AbsentEntryAlone(os, OperationPath(path).value).value);
    }
    if p, g :| Means(path, p) && IsGap(os, g, p) { GapExact(os, p, g); }
  }

  lemma TreeStartExact(path: string, os: seq<Observation>)
    ensures (OperationPath(path).Ok? && TreeAlone(os, OperationPath(path).value).Ok?) <==>
              exists p, z :: Means(path, p) && IsTree(os, z, p)
  {
    hide OperationPath, TreeAlone, IsTree;
    if OperationPath(path).Ok? && TreeAlone(os, OperationPath(path).value).Ok? {
      TreeExact(os, OperationPath(path).value, TreeAlone(os, OperationPath(path).value).value);
    }
    if p, z :| Means(path, p) && IsTree(os, z, p) { TreeExact(os, p, z); }
  }

  lemma DirectoryStartExact(path: string, os: seq<Observation>)
    ensures (OperationPath(path).Ok? && EmptyDirectory(os, OperationPath(path).value).Ok?) <==>
              exists p, z, y :: Means(path, p) && IsEmptyDirectory(os, z, y, p)
  {
    hide OperationPath, EmptyDirectory, IsEmptyDirectory;
    if OperationPath(path).Ok? && EmptyDirectory(os, OperationPath(path).value).Ok? {
      var (z, y) := EmptyDirectory(os, OperationPath(path).value).value;
      EmptyDirectoryExact(os, OperationPath(path).value, z, y);
    }
    if p, z, y :| Means(path, p) && IsEmptyDirectory(os, z, y, p) { EmptyDirectoryExact(os, p, z, y); }
  }

  /** The check of a start accepts exactly what the operation may start from. */
  lemma StartExact(op: Operation, os: seq<Observation>)
    ensures ValidateOperationStart(op, os).Ok? <==> MayStart(op, os)
  {
    hide OperationPath, Target, AbsentEntryAlone, TreeAlone, EmptyDirectory, ValidateRelocationStart, CommitStart, Means;
    hide IsFile, IsGap, IsTree, IsEmptyDirectory, IsFileAndGap, CommitFits, Tracks;
    assert forall b :: TargetKind(b) == Named(b);
    match op
    case Create(path) => GapStartExact(path, os);
    case Mkdir(path) => GapStartExact(path, os);
    case Update(path) => FileStartExact(path, RegularFile, os);
    case Delete(path, entryOnly) => FileStartExact(path, Named(entryOnly), os);
    case Rename(from, to, entryOnly) => RelocationStartExact(from, to, Named(entryOnly), os);
    case Move(from, to, entryOnly) => RelocationStartExact(from, to, Named(entryOnly), os);
    case Hardlink(from, to) => RelocationStartExact(from, to, RegularFile, os);
    case Rmdir(path) => DirectoryStartExact(path, os);
    case WriteDirectory(path) => TreeStartExact(path, os);
    case StructuredCommit(tracked) => CommitStartExact(tracked, os);
  }

  // ----------------------------------------------------------- transitions

  /** The file is new content or another object under the same name. */
  ghost predicate Updates(x: Observation, y: Observation, x': Observation, y': Observation) {
    y'.key == y.key && (x'.key.id != x.key.id || x'.observed != x.observed)
  }

  /** Source and destination trade places: the object keeps its identity, and each of the
      two entries is the same entry before and after. */
  ghost predicate Relocates(x: Observation, y: Observation, g: Observation,
                            x': Observation, y': Observation, g': Observation) {
    x'.key.id == x.key.id && g'.key == y.key && y'.key == g.key
  }

  /** A new regular file under the free name. */
  ghost predicate Created(path: string, start: seq<Observation>, post: seq<Observation>) {
    exists p, g, x, y :: Means(path, p) && IsGap(start, g, p) && IsFile(post, x, y, p, RegularFile) && y.key == g.key
  }

  ghost predicate Updated(path: string, start: seq<Observation>, post: seq<Observation>) {
    exists p, x, y, x', y' ::
      Means(path, p) && IsFile(start, x, y, p, RegularFile) && IsFile(post, x', y', p, RegularFile) && Updates(x, y, x', y')
  }

  /** The name is free and is the name that was taken. */
  ghost predicate Deleted(path: string, kind: ObjectKind, start: seq<Observation>, post: seq<Observation>) {
    exists p, x, y, g :: Means(path, p) && IsFile(start, x, y, p, kind) && IsGap(post, g, p) && g.key == y.key
  }

  /** From a file and a gap to the file in the gap. */
  ghost predicate Relocated(from: string, to: string, kind: ObjectKind, start: seq<Observation>, post: seq<Observation>) {
    exists p, q, x, y, g, x', y', g' ::
      && Means(from, p) && Means(to, q) && IsFileAndGap(start, x, y, g, p, q, kind)
      && IsFileAndGap(post, x', y', g', q, p, kind) && Relocates(x, y, g, x', y', g')
  }

  /** The same file under its old name and, besides, under the name that was free. */
  ghost predicate Linked(from: string, to: string, start: seq<Observation>, post: seq<Observation>) {
    exists p, q, x, y, g, x', y', h ::
      && Means(from, p) && Means(to, q) && IsFileAndGap(start, x, y, g, p, q, RegularFile)
      && IsLinkedFile(post, x', y', h, p, q) && SameKeys(x, y, g, x', y', h)
  }

  ghost predicate SameKeys(x: Observation, y: Observation, g: Observation, x': Observation, y': Observation, h: Observation) {
    x'.key == x.key && y'.key == y.key && h.key == g.key
  }

  ghost predicate DirectoryMade(path: string, start: seq<Observation>, post: seq<Observation>) {
    exists p, g, z, y :: Means(path, p) && IsGap(start, g, p) && IsEmptyDirectory(post, z, y, p) && y.key == g.key
  }

  ghost predicate DirectoryRemoved(path: string, start: seq<Observation>, post: seq<Observation>) {
    exists p, z, y, g :: Means(path, p) && IsEmptyDirectory(start, z, y, p) && IsGap(post, g, p) && g.key == y.key
  }

  /** The same directory, with whatever is in it now. */
  ghost predicate DirectoryWritten(path: string, start: seq<Observation>, post: seq<Observation>) {
    exists p, z, z' :: Means(path, p) && IsTree(start, z, p) && IsTree(post, z', p) && z'.key == z.key
  }

  ghost predicate Committed(tracked: seq<string>, start: seq<Observation>, post: seq<Observation>) {
    exists paths, z, z' :: Tracks(tracked, paths) && CommitFits(start, paths) && CommitFits(post, paths)
                        && OnlyGitMoves(start, post, z, z')
  }

  /** What an operation achieves: what it started from and what it leaves. */
  ghost predicate Achieves(op: Operation, start: seq<Observation>, post: seq<Observation>) {
    match op
    case Create(path) => Created(path, start, post)
    case Update(path) => Updated(path, start, post)
    case Delete(path, entryOnly) => Deleted(path, Named(entryOnly), start, post)
    case Rename(from, to, entryOnly) => Relocated(from, to, Named(entryOnly), start, post)
    case Move(from, to, entryOnly) => Relocated(from, to, Named(entryOnly), start, post)
    case Hardlink(from, to) => Linked(from, to, start, post)
    case Mkdir(path) => DirectoryMade(path, start, post)
    case Rmdir(path) => DirectoryRemoved(path, start, post)
    case WriteDirectory(path) => DirectoryWritten(path, start, post)
    case StructuredCommit(tracked) => Committed(tracked, start, post)
  }

  /** Both checks of a transition together. */
  predicate Checked(op: Operation, start: seq<Observation>, post: seq<Observation>) {
    ValidateOperationStart(op, start).Ok? && ValidateExpectedTransition(op, start, post).Ok?
  }

  lemma CreateExact(path: string, start: seq<Observation>, post: seq<Observation>)
    ensures Checked(Create(path), start, post) <==> Created(path, start, post)
  {
    hide OperationPath, AbsentEntryAlone, Target, IsGap, IsFile;
    if Checked(Create(path), start, post) {
      var p := OperationPath(path).value;
      var g := AbsentEntryAlone(start, p).value;
      var (x, y) := Target(post, p, RegularFile).value;
      GapExact(start, p, g);
      FileExact(post, p, RegularFile, x, y);
      assert Means(path, p);
    }
    if p, g, x, y :| Means(path, p) && IsGap(start, g, p) && IsFile(post, x, y, p, RegularFile) && y.key == g.key {
      GapExact(start, p, g);
      FileExact(post, p, RegularFile, x, y);
    }
  }

  lemma UpdateExact(path: string, start: seq<Observation>, post: seq<Observation>)
    ensures Checked(Update(path), start, post) <==> Updated(path, start, post)
  {
    hide OperationPath, Target, IsFile;
    if Checked(Update(path), start, post) {
      var p := OperationPath(path).value;
      var (x, y) := Target(start, p, RegularFile).value;
      var (x', y') := Target(post, p, RegularFile).value;
      FileExact(start, p, RegularFile, x, y);
      FileExact(post, p, RegularFile, x', y');
      assert Means(path, p) && Updates(x, y, x', y');
    }
    if Updated(path, start, post) {
      var p, x, y, x', y' :| && Means(path, p) && IsFile(start, x, y, p, RegularFile)
                             && IsFile(post, x', y', p, RegularFile) && Updates(x, y, x', y');
      FileExact(start, p, RegularFile, x, y);
      FileExact(post, p, RegularFile, x', y');
      ObjectIdentity(start, x, y, post, x', y', p);
    }
  }

  /** Two objects of the same kind are the same resource exactly if their names are. */
  lemma ObjectIdentity(start: seq<Observation>, x: Observation, y: Observation, post: seq<Observation>, x': Observation,
                       y': Observation, p: string)
    requires IsFile(start, x, y, p, RegularFile) && IsFile(post, x', y', p, RegularFile)
    ensures x.key.id == x'.key.id <==> x.key.id.name == x'.key.id.name
  {
    hide Decent, NamesEntry, ObjectName;
  }

  lemma DeleteExact(path: string, entryOnly: bool, start: seq<Observation>, post: seq<Observation>)
    ensures Checked(Delete(path, entryOnly), start, post) <==> Deleted(path, Named(entryOnly), start, post)
  {
    hide OperationPath, AbsentEntryAlone, Target, IsGap, IsFile;
    var kind := Named(entryOnly);
    if Checked(Delete(path, entryOnly), start, post) {
      var p := OperationPath(path).value;
      var (x, y) := Target(start, p, kind).value;
      var g := AbsentEntryAlone(post, p).value;
      FileExact(start, p, kind, x, y);
      GapExact(post, p, g);
      assert Means(path, p);
    }
    if p, x, y, g :| Means(path, p) && IsFile(start, x, y, p, kind) && IsGap(post, g, p) && g.key == y.key {
      FileExact(start, p, kind, x, y);
      GapExact(post, p, g);
    }
  }

  lemma MkdirExact(path: string, start: seq<Observation>, post: seq<Observation>)
    ensures Checked(Mkdir(path), start, post) <==> DirectoryMade(path, start, post)
  {
    hide OperationPath, AbsentEntryAlone, EmptyDirectory, IsGap, IsEmptyDirectory;
    if Checked(Mkdir(path), start, post) {
      var p := OperationPath(path).value;
      var g := AbsentEntryAlone(start, p).value;
      var (z, y) := EmptyDirectory(post, p).value;
      GapExact(start, p, g);
      EmptyDirectoryExact(post, p, z, y);
      assert Means(path, p);
    }
    if p, g, z, y :| Means(path, p) && IsGap(start, g, p) && IsEmptyDirectory(post, z, y, p) && y.key == g.key {
      GapExact(start, p, g);
      EmptyDirectoryExact(post, p, z, y);
    }
  }

  lemma RmdirExact(path: string, start: seq<Observation>, post: seq<Observation>)
    ensures Checked(Rmdir(path), start, post) <==> DirectoryRemoved(path, start, post)
  {
    hide OperationPath, AbsentEntryAlone, EmptyDirectory, IsGap, IsEmptyDirectory;
    if Checked(Rmdir(path), start, post) {
      var p := OperationPath(path).value;
      var (z, y) := EmptyDirectory(start, p).value;
      var g := AbsentEntryAlone(post, p).value;
      EmptyDirectoryExact(start, p, z, y);
      GapExact(post, p, g);
      assert Means(path, p);
    }
    if p, z, y, g :| Means(path, p) && IsEmptyDirectory(start, z, y, p) && IsGap(post, g, p) && g.key == y.key {
      EmptyDirectoryExact(start, p, z, y);
      GapExact(post, p, g);
    }
  }

  lemma WriteDirectoryExact(path: string, start: seq<Observation>, post: seq<Observation>)
    ensures Checked(WriteDirectory(path), start, post) <==> DirectoryWritten(path, start, post)
  {
    hide OperationPath, TreeAlone, IsTree;
    if Checked(WriteDirectory(path), start, post) {
      var p := OperationPath(path).value;
      TreeExact(start, p, TreeAlone(start, p).value);
      TreeExact(post, p, TreeAlone(post, p).value);
      assert Means(path, p);
    }
    if p, z, z' :| Means(path, p) && IsTree(start, z, p) && IsTree(post, z', p) && z'.key == z.key {
      TreeExact(start, p, z);
      TreeExact(post, p, z');
      TreeIdentity(start, z, post, z', p);
    }
  }

  /** Trees under one key are one directory. */
  lemma TreeIdentity(start: seq<Observation>, z: Observation, post: seq<Observation>, z': Observation, p: string)
    requires IsTree(start, z, p) && IsTree(post, z', p) && z'.key == z.key
    ensures z.observed.PresentTree? && z'.observed.PresentTree?
    ensures z'.observed.treeDevice == z.observed.treeDevice && z'.observed.treeInode == z.observed.treeInode
  {
    hide DirectoryName, ObjectName, Decent;
    NamesIdentify(z.observed.treeDevice, z.observed.treeInode, z'.observed.treeDevice, z'.observed.treeInode);
  }

  /** The post-state of a relocation is a source and a free destination the other way round. */
  lemma RelocatedExact(post: seq<Observation>, p: string, q: string, kind: ObjectKind,
                       x: Observation, y: Observation, g: Observation)
    requires p != q
    ensures RequireShape(post, [(Object, q), (Entry, p), (Entry, q)]).Ok?
              && TargetIn(post, q, kind) == Ok((x, y)) && AbsentEntryIn(post, p) == Ok(g)
            <==> IsFileAndGap(post, x, y, g, q, p, kind)
  {
    hide RequireShape, TargetIn, AbsentEntryIn, IsFileAndGap;
    ShapeOrder(post, [(Object, q), (Entry, p), (Entry, q)], [(Object, q), (Entry, q), (Entry, p)]);
    FileAndGapExact(post, q, p, kind, x, y, g);
  }

  lemma RelocationMeans(from: string, to: string, kind: ObjectKind, start: seq<Observation>, post: seq<Observation>)
    requires ValidateRelocationStart(from, to, kind, start).Ok? && ValidateRelocation(from, to, kind, start, post).Ok?
    ensures Relocated(from, to, kind, start, post)
  {
    hide OperationPath, RequireShape, TargetIn, AbsentEntryIn, IsFileAndGap;
    var p, q := OperationPath(from).value, OperationPath(to).value;
    var (x, y) := TargetIn(start, p, kind).value;
    var g := AbsentEntryIn(start, q).value;
    var (x', y') := TargetIn(post, q, kind).value;
    var g' := AbsentEntryIn(post, p).value;
    FileAndGapExact(start, p, q, kind, x, y, g);
    RelocatedExact(post, p, q, kind, x', y', g');
    RelocatedIdentity(start, x, y, g, post, x', y', g', p, q, kind);
    assert Means(from, p) && Means(to, q) && Relocates(x, y, g, x', y', g');
  }

  lemma RelocatedIdentity(start: seq<Observation>, x: Observation, y: Observation, g: Observation,
                          post: seq<Observation>, x': Observation, y': Observation, g': Observation,
                          p: string, q: string, kind: ObjectKind)
    requires IsFileAndGap(start, x, y, g, p, q, kind) && IsFileAndGap(post, x', y', g', q, p, kind)
    ensures p != q
    ensures x'.key.id == x.key.id <==> x'.key.id.name == x.key.id.name
  {
    hide Decent, NamesEntry, ObjectName;
  }

  lemma MeantRelocation(from: string, to: string, kind: ObjectKind, start: seq<Observation>, post: seq<Observation>)
    requires Relocated(from, to, kind, start, post)
    ensures ValidateRelocationStart(from, to, kind, start).Ok? && ValidateRelocation(from, to, kind, start, post).Ok?
  {
    hide OperationPath, RequireShape, TargetIn, AbsentEntryIn, IsFileAndGap;
    var p, q, x, y, g, x', y', g' :|
      && Means(from, p) && Means(to, q) && IsFileAndGap(start, x, y, g, p, q, kind)
      && IsFileAndGap(post, x', y', g', q, p, kind) && Relocates(x, y, g, x', y', g');
    RelocatedIdentity(start, x, y, g, post, x', y', g', p, q, kind);
    FileAndGapExact(start, p, q, kind, x, y, g);
    RelocatedExact(post, p, q, kind, x', y', g');
  }

  lemma LinkedExact(post: seq<Observation>, p: string, q: string, x: Observation, y: Observation, h: Observation)
    requires p != q
    ensures (&& RequireShape(post, [(Object, p), (Entry, p), (Entry, q)]).Ok?
             && TargetIn(post, p, RegularFile) == Ok((x, y)) && ObservationAt(post, (Entry, q)) == Ok(h)
             && PresentEntryOf(h, q, RegularFile).Ok? && x.key.id.name == ObjectName(h.observed.device, h.observed.inode))
            <==> IsLinkedFile(post, x, y, h, p, q)
  {
    hide RequireShape, TargetIn, Decent, ObservationAt, NamesEntry, ObjectName, EntryNamed;
    ThreeFound(post, (Object, p), (Entry, p), (Entry, q), x, y, h);
    TargetInExact(post, p, RegularFile, x, y);
    EntryNamedExact(h, q);
  }

  lemma HardlinkMeans(from: string, to: string, start: seq<Observation>, post: seq<Observation>)
    requires ValidateRelocationStart(from, to, RegularFile, start).Ok? && ValidateHardlink(from, to, start, post).Ok?
    ensures Linked(from, to, start, post)
  {
    hide OperationPath, RequireShape, TargetIn, AbsentEntryIn, IsFileAndGap, IsLinkedFile, ObservationAt, PresentEntryOf, ObjectName;
    var p, q := OperationPath(from).value, OperationPath(to).value;
    var (x, y) := TargetIn(start, p, RegularFile).value;
    var g := AbsentEntryIn(start, q).value;
    var (x', y') := TargetIn(post, p, RegularFile).value;
    var h := ObservationAt(post, (Entry, q)).value;
    FileAndGapExact(start, p, q, RegularFile, x, y, g);
    PresentEntryMeans(h, q);
    LinkedExact(post, p, q, x', y', h);
    assert Means(from, p) && Means(to, q) && SameKeys(x, y, g, x', y', h);
  }

  lemma PresentEntryMeans(h: Observation, path: string)
    requires PresentEntryOf(h, path, RegularFile).Ok?
    ensures h.observed.PresentEntry?
  {
  }

  lemma LinkedElsewhere(os: seq<Observation>, x: Observation, y: Observation, h: Observation, p: string, q: string)
    requires IsLinkedFile(os, x, y, h, p, q)
    ensures p != q && h.observed.PresentEntry?
  {
  }

  lemma MeantHardlink(from: string, to: string, start: seq<Observation>, post: seq<Observation>)
    requires Linked(from, to, start, post)
    ensures ValidateRelocationStart(from, to, RegularFile, start).Ok? && ValidateHardlink(from, to, start, post).Ok?
  {
    hide OperationPath, RequireShape, TargetIn, AbsentEntryIn, IsFileAndGap, IsLinkedFile, ObservationAt, PresentEntryOf, ObjectName;
    var p, q, x, y, g, x', y', h :|
      && Means(from, p) && Means(to, q) && IsFileAndGap(start, x, y, g, p, q, RegularFile)
      && IsLinkedFile(post, x', y', h, p, q) && SameKeys(x, y, g, x', y', h);
    LinkedElsewhere(post, x', y', h, p, q);
    FileAndGapExact(start, p, q, RegularFile, x, y, g);
    LinkedExact(post, p, q, x', y', h);
  }

  lemma CommitExact(tracked: seq<string>, start: seq<Observation>, post: seq<Observation>)
    ensures (CommitStart(tracked, start).Ok? && CommitStart(tracked, post).Ok? && CommitTransition(start, post).Ok?)
            <==> Committed(tracked, start, post)
  {
    hide CommitStart, CommitTransition, CommitFits, OnlyGitMoves, UniquePaths, Tracks, OnePerPlace;
    if CommitStart(tracked, start).Ok? && CommitStart(tracked, post).Ok? && CommitTransition(start, post).Ok? {
      CommitStartMeans(tracked, start);
      CommitStartMeans(tracked, post);
      var paths := UniquePaths(tracked).value;
      UniquePathsExact(tracked, paths);
      CommitFitsOnce(start, paths);
      CommitFitsOnce(post, paths);
      CommitChangeExact(start, post);
    }
    if Committed(tracked, start, post) {
      var paths, z, z' :| Tracks(tracked, paths) && CommitFits(start, paths) && CommitFits(post, paths)
                       && OnlyGitMoves(start, post, z, z');
      CommitFitsOnce(start, paths);
      CommitFitsOnce(post, paths);
      MeantCommitStarts(tracked, start, paths);
      MeantCommitStarts(tracked, post, paths);
      CommitChangeExact(start, post);
    }
  }

  lemma CommitFitsOnce(os: seq<Observation>, paths: seq<string>)
    requires CommitFits(os, paths)
    ensures OnePerPlace(os)
  {
  }

  /** A start and a post-state pass both checks exactly if the operation achieves the one
      from the other. */
  lemma ChangeExact(op: Operation, start: seq<Observation>, post: seq<Observation>)
    ensures ValidateOperationStart(op, start).Ok? && ValidateExpectedTransition(op, start, post).Ok? <==> Achieves(op, start, post)
  {
    hide OperationPath, Target, AbsentEntryAlone, TreeAlone, EmptyDirectory, ValidateRelocationStart, CommitStart;
    hide ValidateRelocation, ValidateHardlink, CommitTransition, Created, Updated, Deleted, Relocated, Linked;
    hide DirectoryMade, DirectoryRemoved, DirectoryWritten, Committed;
    assert forall b :: TargetKind(b) == Named(b);
    match op
    case Create(path) => CreateExact(path, start, post);
    case Update(path) => UpdateExact(path, start, post);
    case Delete(path, entryOnly) => DeleteExact(path, entryOnly, start, post);
    case Rename(from, to, entryOnly) => RelocationExact(from, to, Named(entryOnly), start, post);
    case Move(from, to, entryOnly) => RelocationExact(from, to, Named(entryOnly), start, post);
    case Hardlink(from, to) => HardlinkExact(from, to, start, post);
    case Mkdir(path) => MkdirExact(path, start, post);
    case Rmdir(path) => RmdirExact(path, start, post);
    case WriteDirectory(path) => WriteDirectoryExact(path, start, post);
    case StructuredCommit(tracked) => CommitExact(tracked, start, post);
  }

  lemma RelocationExact(from: string, to: string, kind: ObjectKind, start: seq<Observation>, post: seq<Observation>)
    ensures (ValidateRelocationStart(from, to, kind, start).Ok? && ValidateRelocation(from, to, kind, start, post).Ok?)
            <==> Relocated(from, to, kind, start, post)
  {
    hide ValidateRelocationStart, ValidateRelocation, Relocated;
    if ValidateRelocationStart(from, to, kind, start).Ok? && ValidateRelocation(from, to, kind, start, post).Ok? {
      RelocationMeans(from, to, kind, start, post);
    }
    if Relocated(from, to, kind, start, post) { MeantRelocation(from, to, kind, start, post); }
  }

  lemma HardlinkExact(from: string, to: string, start: seq<Observation>, post: seq<Observation>)
    ensures (ValidateRelocationStart(from, to, RegularFile, start).Ok? && ValidateHardlink(from, to, start, post).Ok?)
            <==> Linked(from, to, start, post)
  {
    hide ValidateRelocationStart, ValidateHardlink, Achieves;
    if ValidateRelocationStart(from, to, RegularFile, start).Ok? && ValidateHardlink(from, to, start, post).Ok? {
      HardlinkMeans(from, to, start, post);
    }
    if Linked(from, to, start, post) { MeantHardlink(from, to, start, post); }
  }

  /** A completed write is accepted exactly if the operation achieves the expected
      post-state and the post-state found is a permutation of it. */
  lemma TransitionMeans(op: Operation, start: seq<Observation>, expected: seq<Observation>, actual: seq<Observation>)
    ensures ValidateOperationTransition(op, start, expected, actual).Ok? <==>
              Achieves(op, start, expected) && Permutes(expected, actual)
  {
    hide ValidateOperationStart, ValidateExpectedTransition, ValidateOperationTransition, Achieves, Permutes;
    TransitionExact(op, start, expected, actual);
    ChangeExact(op, start, expected);
  }
}
