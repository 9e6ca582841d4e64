/** Files, gaps, directories and their names, said of the observations themselves, and
    that the checks of an operation look for exactly these (crates/stateful-core/src/resource.rs). */
module OperationPieces {
  import opened Basics
  import opened Resources
  import opened Operations

  // ------------------------------------------------------------ vocabulary

  /** All of one named workspace, each of the kind its key says. */
  ghost predicate Decent(os: seq<Observation>) {
    && (forall o :: o in os ==> o.observed.Kind() == o.key.id.kind && o.key.workspace != BLANK)
    && (forall o, p :: o in os && p in os ==> o.key.workspace == p.key.workspace)
  }

  /** An entry's name ends in the last component of its path. */
  ghost predicate NamesEntry(name: string, path: string) {
    "entry:" <= name && exists d, b :: name == d + ":" + b && IsLast(path, b)
  }

  /** `last` is what stands after the last slash of the path. */
  ghost predicate IsLast(path: string, last: string) {
    '/' !in last && (path == last || exists d :: path == d + "/" + last)
  }

  /** A present object of the given kind at the path. */
  ghost predicate ObjectAt(o: Observation, path: string, kind: ObjectKind) {
    o.key.id.kind == Object && o.key.path == path && o.observed.PresentObject? && o.observed.objectKind == kind
  }

  /** A present entry at the path that is no directory. */
  ghost predicate EntryAt(o: Observation, path: string, kind: ObjectKind) {
    && o.key.id.kind == Entry && o.key.path == path && NamesEntry(o.key.id.name, path)
    && o.observed.PresentEntry? && o.observed.entryKind == kind && o.observed.empty == None
  }

  /** The entry is a name of the object: same device, same inode. */
  ghost predicate Links(entry: Observation, target: Observation) {
    entry.observed.PresentEntry? && target.key.id.name == ObjectName(entry.observed.device, entry.observed.inode)
  }

  /** A present file: its object and its entry. */
  ghost predicate FileAt(x: Observation, y: Observation, path: string, kind: ObjectKind) {
    ObjectAt(x, path, kind) && EntryAt(y, path, kind) && Links(y, x)
  }

  /** A path that names nothing. */
  ghost predicate GapAt(o: Observation, path: string) {
    o.key.id.kind == Entry && o.key.path == path && NamesEntry(o.key.id.name, path) && o.observed == AbsentEntry
  }

  ghost predicate TreeAt(o: Observation, path: string) {
    && o.key.id.kind == DirectoryTree && o.key.path == path && o.observed.PresentTree?
    && o.key.id.name == DirectoryName(o.observed.treeDevice, o.observed.treeInode)
  }

  /** A present empty directory: its tree and its entry. */
  ghost predicate EmptyDirectoryAt(z: Observation, y: Observation, path: string) {
    && TreeAt(z, path) && z.observed.entryCount == 0
    && y.key.id.kind == Entry && y.key.path == path && NamesEntry(y.key.id.name, path)
    && y.observed == PresentEntry(Directory, z.observed.treeDevice, z.observed.treeInode, Some(true))
  }

  // ----------------------------------------------------------------- names

  lemma {:induction false} BasenameExact(path: string, last: string)
    ensures Basename(path) == last <==> IsLast(path, last)
    decreases |path|
  {
    BasenameLast(path);
    if IsLast(path, last) { LastUnique(path, last, Basename(path)); }
  }

  lemma {:induction false} BasenameLast(path: string)
    ensures IsLast(path, Basename(path))
    decreases |path|
  {
    if path != "" && ('/' in path[1..] || path[0] == '/') {
      BasenameLast(path[1..]);
      var b := Basename(path[1..]);
      if path[1..] == b {
        assert path == "" + "/" + b;
      } else {
        var d :| path[1..] == d + "/" + b;
        assert path == ([path[0]] + d) + "/" + b;
      }
    }
  }

  lemma LastPart(path: string, last: string)
    requires IsLast(path, last)
    ensures |last| <= |path| && last == path[|path| - |last|..]
    ensures |last| < |path| ==> path[|path| - |last| - 1] == '/'
    ensures forall k :: |path| - |last| <= k < |path| ==> path[k] != '/'
  {
    assert forall k :: |path| - |last| <= k < |path| ==> path[k] == last[k - (|path| - |last|)];
  }

  lemma LastUnique(path: string, a: string, b: string)
    requires IsLast(path, a) && IsLast(path, b)
    ensures a == b
  {
    hide IsLast;
    LastPart(path, a);
    LastPart(path, b);
    assert |a| == |b|;
  }

  lemma EntryNamedExact(o: Observation, path: string)
    ensures EntryNamed(o, path).Ok? <==> NamesEntry(o.key.id.name, path)
  {
    var name, base := o.key.id.name, Basename(path);
    BasenameExact(path, base);
    if EntryNamed(o, path).Ok? {
      var d := name[..|name| - |base| - 1];
      assert name == d + ":" + base;
    }
    if NamesEntry(name, path) {
      var d, b :| name == d + ":" + b && IsLast(path, b);
      BasenameExact(path, b);
      assert name[|d|..] == ":" + b;
    }
  }

  /** The number a string of decimal digits stands for. */
  ghost function NumberOf(s: string): int {
    if s == "" then 0 else 10 * NumberOf(s[..|s| - 1]) + (s[|s| - 1] as int - '0' as int)
  }

  lemma {:induction false} DecimalMeans(n: nat)
    ensures Decimal(n) != "" && (forall c :: c in Decimal(n) ==> '0' <= c <= '9')
    ensures NumberOf(Decimal(n)) == n
  {
    var s := Decimal(n);
    if n >= 10 {
      DecimalMeans(n / 10);
      assert s[..|s| - 1] == Decimal(n / 10);
    } else {
      assert s[..0] == "";
    }
  }

  lemma ColonSplits(a: string, b: string, c: string, d: string)
    requires a + ":" + b == c + ":" + d && ':' !in a && ':' !in c
    ensures a == c && b == d
  {
    var s := a + ":" + b;
    assert s[|a|] == ':' && s[|c|] == ':';
    assert forall i :: 0 <= i < |a| ==> s[i] == a[i];
    assert forall i :: 0 <= i < |c| ==> s[i] == c[i];
    assert |a| == |c|;
    assert a == s[..|a|] && c == s[..|c|];
    assert b == s[|a| + 1..] && d == s[|c| + 1..];
  }

  lemma NumbersSplit(d1: nat, i1: nat, d2: nat, i2: nat)
    requires Decimal(d1) + ":" + Decimal(i1) == Decimal(d2) + ":" + Decimal(i2)
    ensures d1 == d2 && i1 == i2
  {
    DecimalMeans(d1);
    DecimalMeans(d2);
    DecimalMeans(i1);
    DecimalMeans(i2);
    ColonSplits(Decimal(d1), Decimal(i1), Decimal(d2), Decimal(i2));
  }

  /** A name stands for one device and inode only, whether of an object or of a directory. */
  lemma NamesIdentify(d1: nat, i1: nat, d2: nat, i2: nat)
    ensures ObjectName(d1, i1) == ObjectName(d2, i2) <==> d1 == d2 && i1 == i2
    ensures DirectoryName(d1, i1) == DirectoryName(d2, i2) <==> d1 == d2 && i1 == i2
  {
    hide Decimal;
    var a, b := Decimal(d1) + ":" + Decimal(i1), Decimal(d2) + ":" + Decimal(i2);
    assert ObjectName(d1, i1)[7..] == a && ObjectName(d2, i2)[7..] == b;
    assert DirectoryName(d1, i1)[10..] == a && DirectoryName(d2, i2)[10..] == b;
    if a == b { NumbersSplit(d1, i1, d2, i2); }
  }

  // --------------------------------------------------------------- lookup

  /** The only observation in its place. */
  ghost predicate OnlyAt(os: seq<Observation>, slot: Slot, x: Observation) {
    exists n: nat :: OnlyHere(os, slot, x, n)
  }

  ghost predicate OnlyHere(os: seq<Observation>, slot: Slot, x: Observation, n: nat) {
    && n < |os| && os[n] == x && Fits(x, slot)
    && forall m :: 0 <= m < |os| && m != n ==> !Fits(os[m], slot)
  }

  lemma {:induction false} NothingMatches(os: seq<Observation>, slot: Slot)
    ensures Matches(os, slot) == [] <==> forall m :: 0 <= m < |os| ==> !Fits(os[m], slot)
  {
    if os != [] {
      NothingMatches(os[1..], slot);
      assert forall m :: 0 < m < |os| ==> os[m] == os[1..][m - 1];
    }
  }

  lemma {:induction false} OneMatches(os: seq<Observation>, slot: Slot, x: Observation)
    ensures Matches(os, slot) == [x] <==> OnlyAt(os, slot, x)
  {
    hide Fits;
    if os != [] {
      var rest := os[1..];
      assert forall m :: 0 < m < |os| ==> os[m] == rest[m - 1];
      if Fits(os[0], slot) {
        NothingMatches(rest, slot);
        assert Matches(os, slot) == [os[0]] + Matches(rest, slot);
        if Matches(os, slot) == [x] {
          assert Matches(os, slot)[0] == os[0];
          assert OnlyHere(os, slot, x, 0);
        }
        if OnlyAt(os, slot, x) {
          var n: nat :| OnlyHere(os, slot, x, n);
          assert n == 0;
        }
      } else {
        OneMatches(rest, slot, x);
        assert Matches(os, slot) == Matches(rest, slot);
        if OnlyAt(rest, slot, x) {
          var n: nat :| OnlyHere(rest, slot, x, n);
          assert OnlyHere(os, slot, x, n + 1);
        }
        if OnlyAt(os, slot, x) {
          var n: nat :| OnlyHere(os, slot, x, n);
          assert OnlyHere(rest, slot, x, n - 1);
        }
      }
    }
  }

  lemma FoundExact(os: seq<Observation>, slot: Slot, x: Observation)
    ensures ObservationAt(os, slot) == Ok(x) <==> OnlyAt(os, slot, x)
  {
    OneMatches(os, slot, x);
  }

  // ----------------------------------------------------------------- lists

  lemma WithoutFirst(s: seq<Observation>)
    requires s != []
    ensures multiset(s[1..]) == multiset(s) - multiset{s[0]} && s[0] in multiset(s)
  {
    assert s == [s[0]] + s[1..];
  }

  lemma SingleOf(s: seq<Observation>, x: Observation)
    requires multiset(s) == multiset{x}
    ensures s == [x]
  {
    assert |multiset(s)| == |s|;
    WithoutFirst(s);
  }

  lemma PairHead(s: seq<Observation>, x: Observation, y: Observation)
    requires multiset(s) == multiset{x, y} && s != [] && s[0] == x
    ensures s == [x, y]
  {
    WithoutFirst(s);
    assert multiset{x, y} - multiset{x} == multiset{y};
    SingleOf(s[1..], y);
    assert s == [x] + s[1..];
  }

  lemma PairFirst(s: seq<Observation>, x: Observation, y: Observation)
    requires multiset(s) == multiset{x, y}
    ensures s != [] && (s[0] == x || s[0] == y)
  {
    assert |multiset(s)| == |s|;
    WithoutFirst(s);
  }

  lemma PairOf(s: seq<Observation>, x: Observation, y: Observation)
    ensures multiset(s) == multiset{x, y} <==> s == [x, y] || s == [y, x]
  {
    if multiset(s) == multiset{x, y} {
      PairFirst(s, x, y);
      if s[0] == x {
        PairHead(s, x, y);
      } else {
        assert multiset{x, y} == multiset{y, x};
        PairHead(s, y, x);
      }
    }
  }

  /** The six orders of three. */
  ghost predicate InSomeOrder(s: seq<Observation>, x: Observation, y: Observation, z: Observation) {
    || s == [x, y, z] || s == [x, z, y] || s == [y, x, z]
    || s == [y, z, x] || s == [z, x, y] || s == [z, y, x]
  }

  lemma TripleTail(s: seq<Observation>, x: Observation, y: Observation, z: Observation)
    requires multiset(s) == multiset{x, y, z} && s != [] && s[0] == x
    ensures multiset(s[1..]) == multiset{y, z}
  {
    WithoutFirst(s);
    assert multiset{x, y, z} - multiset{x} == multiset{y, z};
  }

  lemma TripleHead(s: seq<Observation>, x: Observation, y: Observation, z: Observation)
    requires multiset(s) == multiset{x, y, z} && s != [] && s[0] == x
    ensures s == [x, y, z] || s == [x, z, y]
  {
    TripleTail(s, x, y, z);
    PairOf(s[1..], y, z);
    assert s == [x] + s[1..];
  }

  lemma TripleFirst(s: seq<Observation>, x: Observation, y: Observation, z: Observation)
    requires multiset(s) == multiset{x, y, z}
    ensures s != [] && (s[0] == x || s[0] == y || s[0] == z)
  {
    assert |multiset(s)| == |s|;
    WithoutFirst(s);
  }

  lemma TripleOf(s: seq<Observation>, x: Observation, y: Observation, z: Observation)
    requires multiset(s) == multiset{x, y, z}
    ensures InSomeOrder(s, x, y, z)
  {
    TripleFirst(s, x, y, z);
    if s[0] == x {
      TripleHead(s, x, y, z);
    } else if s[0] == y {
      assert multiset{x, y, z} == multiset{y, x, z};
      TripleHead(s, y, x, z);
    } else {
      assert multiset{x, y, z} == multiset{z, x, y};
      TripleHead(s, z, x, y);
    }
  }

  lemma OrderedTriple(s: seq<Observation>, x: Observation, y: Observation, z: Observation)
    requires InSomeOrder(s, x, y, z)
    ensures multiset(s) == multiset{x, y, z}
  {
  }

  // ---------------------------------------------------------------- shapes

  /** Each place is taken exactly once and nothing else is there. */
  ghost predicate Fills(os: seq<Observation>, shape: seq<Slot>) {
    && |os| == |shape| && os != []
    && (forall s :: s in shape ==> exists x :: OnlyAt(os, s, x))
    && (forall o :: o in os ==> exists s :: s in shape && Fits(o, s))
  }

  lemma FillsDistinct(os: seq<Observation>, shape: seq<Slot>)
    requires Fills(os, shape)
    ensures DistinctKeys(os)
  {
    forall i, j | 0 <= i < j < |os| ensures os[i].key != os[j].key {
      assert os[i] in os;
      var s :| s in shape && Fits(os[i], s);
      var x :| OnlyAt(os, s, x);
      var n: nat :| OnlyHere(os, s, x, n);
      assert n == i;
    }
  }

  lemma DecentExact(os: seq<Observation>)
    requires os != []
    ensures Decent(os) <==>
              os[0].key.workspace != BLANK && forall o :: o in os ==> o.KindMatches() && o.key.workspace == os[0].key.workspace
  {
    assert os[0] in os;
  }

  lemma MatchedOnce(os: seq<Observation>, s: Slot)
    ensures |Matches(os, s)| == 1 <==> exists x :: OnlyAt(os, s, x)
  {
    hide OnlyAt, Matches;
    if |Matches(os, s)| == 1 {
      var x := Matches(os, s)[0];
      assert Matches(os, s) == [x];
      OneMatches(os, s, x);
    }
    if x :| OnlyAt(os, s, x) {
      OneMatches(os, s, x);
    }
  }

  lemma ShapeExact(os: seq<Observation>, shape: seq<Slot>)
    ensures RequireShape(os, shape).Ok? <==> Decent(os) && Fills(os, shape)
  {
    hide Matches, OnlyAt, Fits, Decent, DistinctKeys;
    forall s ensures |Matches(os, s)| == 1 <==> exists x :: OnlyAt(os, s, x) { MatchedOnce(os, s); }
    if os != [] { DecentExact(os); }
    if Fills(os, shape) { FillsDistinct(os, shape); }
  }

  /** Three observations, each the only one in its place. */
  ghost predicate Placed(os: seq<Observation>, i: nat, j: nat, k: nat, s: Slot, t: Slot, u: Slot) {
    && |os| == 3 && i < 3 && j < 3 && k < 3 && i != j && j != k && i != k
    && Fits(os[i], s) && Fits(os[j], t) && Fits(os[k], u)
  }

  lemma PlacedFills(os: seq<Observation>, i: nat, j: nat, k: nat, s: Slot, t: Slot, u: Slot)
    requires s != t && t != u && s != u && Placed(os, i, j, k, s, t, u)
    ensures Fills(os, [s, t, u])
    ensures OnlyAt(os, s, os[i]) && OnlyAt(os, t, os[j]) && OnlyAt(os, u, os[k])
  {
    assert OnlyHere(os, s, os[i], i);
    assert OnlyHere(os, t, os[j], j);
    assert OnlyHere(os, u, os[k], k);
    assert OnlyAt(os, s, os[i]) && OnlyAt(os, t, os[j]) && OnlyAt(os, u, os[k]);
    var shape := [s, t, u];
    assert shape[0] in shape && shape[1] in shape && shape[2] in shape;
    forall o | o in os ensures exists a :: a in shape && Fits(o, a) {
      var m :| 0 <= m < 3 && os[m] == o;
      assert m == i || m == j || m == k;
    }
  }

  lemma PlacedMultiset(os: seq<Observation>, i: nat, j: nat, k: nat)
    requires |os| == 3 && i < 3 && j < 3 && k < 3 && i != j && j != k && i != k
    ensures multiset(os) == multiset{os[i], os[j], os[k]}
  {
    assert os == [os[0], os[1], os[2]];
    assert InSomeOrder(os, os[i], os[j], os[k]);
    OrderedTriple(os, os[i], os[j], os[k]);
  }

  lemma TriplePlaced(os: seq<Observation>, x: Observation, y: Observation, z: Observation)
    returns (i: nat, j: nat, k: nat)
    requires multiset(os) == multiset{x, y, z}
    ensures |os| == 3 && i < 3 && j < 3 && k < 3 && i != j && j != k && i != k
    ensures os[i] == x && os[j] == y && os[k] == z
  {
    TripleOf(os, x, y, z);
    if os == [x, y, z] { return 0, 1, 2; }
    if os == [x, z, y] { return 0, 2, 1; }
    if os == [y, x, z] { return 1, 0, 2; }
    if os == [y, z, x] { return 2, 0, 1; }
    if os == [z, x, y] { return 1, 2, 0; }
    return 2, 1, 0;
  }

  lemma ThreeFound(os: seq<Observation>, s: Slot, t: Slot, u: Slot, x: Observation, y: Observation, z: Observation)
    requires s != t && t != u && s != u
    ensures RequireShape(os, [s, t, u]).Ok?
              && ObservationAt(os, s) == Ok(x) && ObservationAt(os, t) == Ok(y) && ObservationAt(os, u) == Ok(z)
            <==> Decent(os) && multiset(os) == multiset{x, y, z} && Fits(x, s) && Fits(y, t) && Fits(z, u)
  {
    hide RequireShape, ObservationAt, Decent, OnlyAt;
    ShapeExact(os, [s, t, u]);
    FoundExact(os, s, x);
    FoundExact(os, t, y);
    FoundExact(os, u, z);
    if Fills(os, [s, t, u]) && OnlyAt(os, s, x) && OnlyAt(os, t, y) && OnlyAt(os, u, z) {
      ThreePlaced(os, s, t, u, x, y, z);
    }
    if multiset(os) == multiset{x, y, z} && Fits(x, s) && Fits(y, t) && Fits(z, u) {
      var i, j, k := TriplePlaced(os, x, y, z);
      PlacedFills(os, i, j, k, s, t, u);
    }
  }

  lemma ThreePlaced(os: seq<Observation>, s: Slot, t: Slot, u: Slot, x: Observation, y: Observation, z: Observation)
    requires s != t && t != u && s != u && |os| == 3 && OnlyAt(os, s, x) && OnlyAt(os, t, y) && OnlyAt(os, u, z)
    ensures multiset(os) == multiset{x, y, z} && Fits(x, s) && Fits(y, t) && Fits(z, u)
  {
    var i: nat :| OnlyHere(os, s, x, i);
    var j: nat :| OnlyHere(os, t, y, j);
    var k: nat :| OnlyHere(os, u, z, k);
    PlacedMultiset(os, i, j, k);
  }

  lemma PairFills(os: seq<Observation>, s: Slot, t: Slot, x: Observation, y: Observation)
    requires s != t && multiset(os) == multiset{x, y} && Fits(x, s) && Fits(y, t)
    ensures Fills(os, [s, t]) && OnlyAt(os, s, x) && OnlyAt(os, t, y)
  {
    PairOf(os, x, y);
    var i: nat, j: nat := if os == [x, y] then 0 else 1, if os == [x, y] then 1 else 0;
    assert OnlyHere(os, s, x, i);
    assert OnlyHere(os, t, y, j);
    assert OnlyAt(os, s, x) && OnlyAt(os, t, y);
    var shape := [s, t];
    assert shape[0] in shape && shape[1] in shape;
  }

  lemma PairPlaced(os: seq<Observation>, s: Slot, t: Slot, x: Observation, y: Observation)
    requires s != t && |os| == 2 && OnlyAt(os, s, x) && OnlyAt(os, t, y)
    ensures multiset(os) == multiset{x, y} && Fits(x, s) && Fits(y, t)
  {
    var i: nat :| OnlyHere(os, s, x, i);
    var j: nat :| OnlyHere(os, t, y, j);
    assert os == [os[0], os[1]];
    PairOf(os, x, y);
  }

  lemma TwoFound(os: seq<Observation>, s: Slot, t: Slot, x: Observation, y: Observation)
    requires s != t
    ensures RequireShape(os, [s, t]).Ok? && ObservationAt(os, s) == Ok(x) && ObservationAt(os, t) == Ok(y)
            <==> Decent(os) && multiset(os) == multiset{x, y} && Fits(x, s) && Fits(y, t)
  {
    hide RequireShape, ObservationAt, Decent, OnlyAt, Fits;
    ShapeExact(os, [s, t]);
    FoundExact(os, s, x);
    FoundExact(os, t, y);
    if Fills(os, [s, t]) && OnlyAt(os, s, x) && OnlyAt(os, t, y) {
      PairPlaced(os, s, t, x, y);
    }
    if multiset(os) == multiset{x, y} && Fits(x, s) && Fits(y, t) {
      PairFills(os, s, t, x, y);
    }
  }

  lemma OneFound(os: seq<Observation>, s: Slot, x: Observation)
    ensures RequireShape(os, [s]).Ok? && ObservationAt(os, s) == Ok(x) <==> Decent(os) && os == [x] && Fits(x, s)
  {
    hide RequireShape, ObservationAt, Decent, Fits;
    ShapeExact(os, [s]);
    FoundExact(os, s, x);
    if os == [x] && Fits(x, s) {
      assert OnlyHere(os, s, x, 0);
      assert [s][0] in [s];
    }
  }

  // ---------------------------------------------------------------- pieces

  /** The list is one present file and no more. */
  ghost predicate IsFile(os: seq<Observation>, x: Observation, y: Observation, path: string, kind: ObjectKind) {
    Decent(os) && multiset(os) == multiset{x, y} && FileAt(x, y, path, kind)
  }

  ghost predicate IsGap(os: seq<Observation>, y: Observation, path: string) { Decent(os) && os == [y] && GapAt(y, path) }

  ghost predicate IsTree(os: seq<Observation>, z: Observation, path: string) { Decent(os) && os == [z] && TreeAt(z, path) }

  ghost predicate IsEmptyDirectory(os: seq<Observation>, z: Observation, y: Observation, path: string) {
    Decent(os) && multiset(os) == multiset{z, y} && EmptyDirectoryAt(z, y, path)
  }

  /** A present file at one path and nothing at another. */
  ghost predicate IsFileAndGap(os: seq<Observation>, x: Observation, y: Observation, g: Observation,
                               path: string, gap: string, kind: ObjectKind) {
    Decent(os) && multiset(os) == multiset{x, y, g} && FileAt(x, y, path, kind) && GapAt(g, gap) && path != gap
  }

  /** A present file that has a second name. */
  ghost predicate IsLinkedFile(os: seq<Observation>, x: Observation, y: Observation, h: Observation,
                               path: string, link: string) {
    && Decent(os) && multiset(os) == multiset{x, y, h} && path != link
    && FileAt(x, y, path, RegularFile) && EntryAt(h, link, RegularFile) && Links(h, x)
  }

  lemma TargetInExact(os: seq<Observation>, path: string, kind: ObjectKind, x: Observation, y: Observation)
    ensures TargetIn(os, path, kind) == Ok((x, y)) <==>
              && ObservationAt(os, (Object, path)) == Ok(x) && ObservationAt(os, (Entry, path)) == Ok(y)
              && FileAt(x, y, path, kind)
  {
    hide ObservationAt, EntryNamed, NamesEntry, ObjectName, OnlyAt;
    EntryNamedExact(y, path);
    FoundExact(os, (Object, path), x);
    FoundExact(os, (Entry, path), y);
    OnlyFits(os, (Object, path), x);
    OnlyFits(os, (Entry, path), y);
  }

  lemma OnlyFits(os: seq<Observation>, slot: Slot, x: Observation)
    ensures OnlyAt(os, slot, x) ==> Fits(x, slot)
  {
  }

  lemma GapInExact(os: seq<Observation>, path: string, y: Observation)
    ensures AbsentEntryIn(os, path) == Ok(y) <==> ObservationAt(os, (Entry, path)) == Ok(y) && GapAt(y, path)
  {
    hide ObservationAt, EntryNamed, NamesEntry, OnlyAt;
    EntryNamedExact(y, path);
    FoundExact(os, (Entry, path), y);
    OnlyFits(os, (Entry, path), y);
  }

  lemma TreeInExact(os: seq<Observation>, path: string, z: Observation)
    ensures TreeIn(os, path) == Ok(z) <==> ObservationAt(os, (DirectoryTree, path)) == Ok(z) && TreeAt(z, path)
  {
    hide ObservationAt, DirectoryName, OnlyAt;
    FoundExact(os, (DirectoryTree, path), z);
    OnlyFits(os, (DirectoryTree, path), z);
  }

  lemma FileExact(os: seq<Observation>, path: string, kind: ObjectKind, x: Observation, y: Observation)
    ensures Target(os, path, kind) == Ok((x, y)) <==> IsFile(os, x, y, path, kind)
  {
    hide RequireShape, TargetIn, Decent, ObservationAt, NamesEntry, ObjectName;
    TwoFound(os, (Object, path), (Entry, path), x, y);
    TargetInExact(os, path, kind, x, y);
  }

  lemma GapExact(os: seq<Observation>, path: string, y: Observation)
    ensures AbsentEntryAlone(os, path) == Ok(y) <==> IsGap(os, y, path)
  {
    hide RequireShape, AbsentEntryIn, Decent, ObservationAt, NamesEntry;
    OneFound(os, (Entry, path), y);
    GapInExact(os, path, y);
  }

  lemma TreeExact(os: seq<Observation>, path: string, z: Observation)
    ensures TreeAlone(os, path) == Ok(z) <==> IsTree(os, z, path)
  {
    hide RequireShape, TreeIn, Decent, ObservationAt, DirectoryName;
    OneFound(os, (DirectoryTree, path), z);
    TreeInExact(os, path, z);
  }

  lemma EmptyDirectoryExact(os: seq<Observation>, path: string, z: Observation, y: Observation)
    ensures EmptyDirectory(os, path) == Ok((z, y)) <==> IsEmptyDirectory(os, z, y, path)
  {
    hide RequireShape, TreeIn, Decent, ObservationAt, DirectoryName, NamesEntry, EntryNamed;
    TwoFound(os, (DirectoryTree, path), (Entry, path), z, y);
    TreeInExact(os, path, z);
    EntryNamedExact(y, path);
  }

  lemma FileAndGapExact(os: seq<Observation>, path: string, gap: string, kind: ObjectKind,
                        x: Observation, y: Observation, g: Observation)
    requires path != gap
    ensures RequireShape(os, [(Object, path), (Entry, path), (Entry, gap)]).Ok?
              && TargetIn(os, path, kind) == Ok((x, y)) && AbsentEntryIn(os, gap) == Ok(g)
            <==> IsFileAndGap(os, x, y, g, path, gap, kind)
  {
    hide RequireShape, TargetIn, AbsentEntryIn, Decent, ObservationAt, NamesEntry, ObjectName;
    ThreeFound(os, (Object, path), (Entry, path), (Entry, gap), x, y, g);
    TargetInExact(os, path, kind, x, y);
    GapInExact(os, gap, g);
  }
}
