/** Operation paths: what the portable form is, and that a directory key contains a
    path exactly when it is an ancestor, component by component
    (crates/stateful-core/src/resource.rs). */
module Paths {
  import opened Basics
  import opened Resources
  import opened Operations

  /** A component as it may stand in a portable path. */
  predicate Plain(c: string) {
    c != "" && c != "." && c != ".." && '/' !in c && '\\' !in c
  }

  predicate AllPlain(cs: seq<string>) { forall c :: c in cs ==> Plain(c) }

  lemma {:induction false} SplitFirst(head: string, rest: string)
    requires '/' !in head
    ensures FirstComponent(head + "/" + rest) == (head, Some(rest))
    ensures FirstComponent(head) == (head, None)
  {
    if head == "" {
      assert head + "/" + rest == "/" + rest;
      assert ("/" + rest)[1..] == rest;
    } else {
      SplitFirst(head[1..], rest);
      assert (head + "/" + rest)[1..] == head[1..] + "/" + rest;
      assert head == [head[0]] + head[1..];
    }
  }

  lemma {:induction false} FirstPlain(path: string)
    requires '\\' !in path
    ensures '\\' !in FirstComponent(path).0
    ensures FirstComponent(path).1.Some? ==> '\\' !in FirstComponent(path).1.value
  {
    if path != "" && path[0] != '/' { FirstPlain(path[1..]); }
  }

  /** Resolving yields plain components only. */
  lemma {:induction false} ResolvePlain(stack: seq<string>, path: string)
    requires AllPlain(stack) && '\\' !in path && Resolve(stack, path).Ok?
    ensures AllPlain(Resolve(stack, path).value)
    decreases |path|
  {
    FirstPlain(path);
    var (head, rest) := FirstComponent(path);
    var next :=
      if head == "" || head == "." then stack
      else if head == ".." then stack[..|stack| - 1]
      else stack + [head];
    assert AllPlain(next);
    if rest.Some? { ResolvePlain(next, rest.value); }
  }

  /** Resolving undoes joining. */
  lemma {:induction false} ResolveJoin(stack: seq<string>, cs: seq<string>)
    requires cs != [] && AllPlain(cs)
    ensures Resolve(stack, Join(cs)) == Ok(stack + cs)
    decreases |cs|
  {
    assert cs[0] in cs;
    if |cs| == 1 {
      SplitFirst(cs[0], "");
      assert cs == [cs[0]];
    } else {
      SplitFirst(cs[0], Join(cs[1..]));
      ResolveJoin(stack + [cs[0]], cs[1..]);
      assert stack + [cs[0]] + cs[1..] == stack + cs;
    }
  }

  lemma {:induction false} JoinPlain(cs: seq<string>)
    requires cs != [] && AllPlain(cs)
    ensures Join(cs) != "" && Join(cs)[0] != '/' && '\\' !in Join(cs)
  {
    assert cs[0] in cs;
    if |cs| > 1 {
      JoinPlain(cs[1..]);
      assert Join(cs)[0] == cs[0][0] && cs[0][0] in cs[0];
    } else {
      assert cs[0][0] in cs[0];
    }
  }

  lemma PortablePlain(path: string)
    ensures '\\' !in Portable(path)
    ensures '\\' !in path ==> Portable(path) == path
  {
    if '\\' !in path {
      assert forall i :: 0 <= i < |path| ==> path[i] in path;
    }
  }

  /** The portable form is the join of plain components, and normalising it again
      changes nothing. */
  lemma OperationPathNormal(path: string)
    requires OperationPath(path).Ok?
    ensures exists cs :: cs != [] && AllPlain(cs) && OperationPath(path).value == Join(cs)
    ensures OperationPath(OperationPath(path).value) == OperationPath(path)
  {
    PortablePlain(path);
    ResolvePlain([], Portable(path));
    var cs := Resolve([], Portable(path)).value;
    JoinPlain(cs);
    PortablePlain(Join(cs));
    ResolveJoin([], cs);
    assert [] + cs == cs;
  }

  // ------------------------------------------------------------------ laws

  lemma {:induction false} PortableConcat(p: string, q: string)
    ensures Portable(p + q) == Portable(p) + Portable(q)
  {
    assert forall i :: 0 <= i < |p| ==> (p + q)[i] == p[i];
  }

  lemma {:induction false} FirstConcat(p: string, q: string)
    ensures var (head, rest) := FirstComponent(p);
            FirstComponent(p + "/" + q) == (head, Some(if rest.Some? then rest.value + "/" + q else q))
  {
    if p == "" {
      assert p + "/" + q == "/" + q && ("/" + q)[1..] == q;
    } else if p[0] == '/' {
      assert (p + "/" + q)[1..] == p[1..] + "/" + q;
    } else {
      FirstConcat(p[1..], q);
      assert (p + "/" + q)[1..] == p[1..] + "/" + q;
    }
  }

  /** Resolving a longer path goes on from where its front leads. */
  lemma {:induction false} ResolveConcat(stack: seq<string>, p: string, q: string)
    ensures Resolve(stack, p + "/" + q) ==
            if Resolve(stack, p).Err? then Resolve(stack, p) else Resolve(Resolve(stack, p).value, q)
    decreases |p|
  {
    FirstConcat(p, q);
    var (head, rest) := FirstComponent(p);
    if rest.Some? {
      var next :=
        if head == "" || head == "." then Ok(stack)
        else if head == ".." then if stack == [] then Err(InvalidPath) else Ok(stack[..|stack| - 1])
        else Ok(stack + [head]);
      if next.Ok? { ResolveConcat(next.value, rest.value, q); }
    }
  }

  lemma ResolveOne(stack: seq<string>, c: string)
    requires '/' !in c
    ensures c == "" || c == "." ==> Resolve(stack, c) == Ok(stack)
    ensures c == ".." ==> Resolve(stack, c) == if stack == [] then Err(InvalidPath) else Ok(stack[..|stack| - 1])
    ensures Plain(c) ==> Resolve(stack, c) == Ok(stack + [c])
  {
    SplitFirst(c, "");
  }

  /** A component that goes nowhere, or down and up again, does not matter. */
  lemma ResolveSkips(stack: seq<string>, c: string, q: string)
    requires Plain(c)
    ensures Resolve(stack, "./" + q) == Resolve(stack, "/" + q) == Resolve(stack, q)
    ensures Resolve(stack, c + "/../" + q) == Resolve(stack, q)
  {
    hide Resolve;
    ResolveOne(stack, ".");
    ResolveOne(stack, "");
    ResolveConcat(stack, ".", q);
    ResolveConcat(stack, "", q);
    assert "." + "/" + q == "./" + q && "" + "/" + q == "/" + q;
    ResolveOne(stack, c);
    ResolveOne(stack + [c], "..");
    ResolveConcat(stack + [c], "..", q);
    ResolveConcat(stack, c, "../" + q);
    assert c + "/" + ("../" + q) == c + "/../" + q && ".." + "/" + q == "../" + q;
    assert (stack + [c])[..|stack|] == stack;
  }

  /** Two relative paths with the same resolution have the same portable form. */
  lemma SamePortable(a: string, b: string)
    requires Resolve([], Portable(a)) == Resolve([], Portable(b))
    requires a != "" && b != "" && a[0] == b[0]
    ensures OperationPath(a) == OperationPath(b)
  {
  }

  lemma SkipInside(p: string, x: string, q: string)
    requires forall stack :: Resolve(stack, Portable(x + q)) == Resolve(stack, Portable(q))
    ensures OperationPath(p + "/" + (x + q)) == OperationPath(p + "/" + q)
  {
    hide OperationPath, Resolve;
    PortableConcat(p + "/", x + q);
    PortableConcat(p + "/", q);
    PortableConcat(p, "/");
    PortablePlain("/");
    ResolveConcat([], Portable(p), Portable(x + q));
    ResolveConcat([], Portable(p), Portable(q));
    SamePortable(p + "/" + (x + q), p + "/" + q);
  }

  /** How a path is read: backslashes are slashes, empty and `.` components are skipped, a
      component and the `..` after it cancel, and leading `/` and `..` are refused. With
      the normal form of plain components these decide every path. */
  lemma PathLaws(p: string, c: string, q: string)
    requires Plain(c)
    ensures OperationPath(p) == OperationPath(Portable(p))
    ensures OperationPath(p + "/" + ("./" + q)) == OperationPath(p + "/" + q)
    ensures OperationPath(p + "/" + ("/" + q)) == OperationPath(p + "/" + q)
    ensures OperationPath(p + "/" + (c + "/../" + q)) == OperationPath(p + "/" + q)
    ensures OperationPath("/" + q).Err? && OperationPath("..").Err? && OperationPath("../" + q).Err?
  {
    assert OperationPath(p) == OperationPath(Portable(p)) by { PortablePlain(p); PortablePlain(Portable(p)); }
    SkipsInside(p, c, q);
    LeadingRefused(q);
  }

  lemma SkipsInside(p: string, c: string, q: string)
    requires Plain(c)
    ensures OperationPath(p + "/" + ("./" + q)) == OperationPath(p + "/" + q)
    ensures OperationPath(p + "/" + ("/" + q)) == OperationPath(p + "/" + q)
    ensures OperationPath(p + "/" + (c + "/../" + q)) == OperationPath(p + "/" + q)
  {
    hide OperationPath, Resolve, Portable;
    PortablePlain("./");
    PortablePlain("/");
    PlainUp(c);
    PortablePlain(c + "/../");
    PortableConcat("./", q);
    PortableConcat("/", q);
    PortableConcat(c + "/../", q);
    forall stack
      ensures Resolve(stack, Portable("./" + q)) == Resolve(stack, Portable(q))
      ensures Resolve(stack, Portable("/" + q)) == Resolve(stack, Portable(q))
      ensures Resolve(stack, Portable(c + "/../" + q)) == Resolve(stack, Portable(q))
    {
      ResolveSkips(stack, c, Portable(q));
    }
    SkipInside(p, "./", q);
    SkipInside(p, "/", q);
    SkipInside(p, c + "/../", q);
  }

  lemma PlainUp(c: string)
    requires Plain(c)
    ensures '\\' !in c + "/../"
  {
  }

  lemma LeadingRefused(q: string)
    ensures OperationPath("/" + q).Err? && OperationPath("..").Err? && OperationPath("../" + q).Err?
  {
    PortableConcat("/", q);
    PortablePlain("/");
    PortablePlain("..");
    PortablePlain("../");
    PortableConcat("../", q);
    ResolveOne([], "..");
    ResolveConcat([], "..", Portable(q));
    assert ".." + "/" + Portable(q) == "../" + Portable(q);
  }

  // --------------------------------------------------------------- containment

  lemma {:induction false} JoinInjective(a: seq<string>, b: seq<string>)
    requires a != [] && b != [] && AllPlain(a) && AllPlain(b) && Join(a) == Join(b)
    ensures a == b
  {
    ResolveJoin([], a);
    ResolveJoin([], b);
    assert [] + a == a && [] + b == b;
  }

  lemma {:induction false} JoinConcat(a: seq<string>, b: seq<string>)
    requires a != [] && b != []
    ensures Join(a + b) == Join(a) + "/" + Join(b)
  {
    if |a| == 1 {
      assert (a + b)[1..] == b;
    } else {
      JoinConcat(a[1..], b);
      assert (a + b)[1..] == a[1..] + b;
    }
  }

  lemma FirstOfJoin(b: seq<string>)
    requires b != [] && AllPlain(b)
    ensures FirstComponent(Join(b)) == (b[0], if |b| == 1 then None else Some(Join(b[1..])))
  {
    assert b[0] in b;
    SplitFirst(b[0], Join(b[1..]));
  }

  function After(a: seq<string>, rest: string): string
    requires a != []
  {
    if |a| == 1 then rest else Join(a[1..]) + "/" + rest
  }

  lemma FirstOfLonger(a: seq<string>, rest: string)
    requires a != [] && AllPlain(a)
    ensures FirstComponent(Join(a) + "/" + rest) == (a[0], Some(After(a, rest)))
  {
    assert a[0] in a;
    SplitFirst(a[0], After(a, rest));
    if |a| > 1 {
      assert Join(a) + "/" + rest == a[0] + "/" + After(a, rest);
    }
  }

  lemma {:induction false} ComponentsOf(a: seq<string>, rest: string, b: seq<string>)
    requires a != [] && b != [] && AllPlain(a) && AllPlain(b) && Join(b) == Join(a) + "/" + rest
    ensures |a| < |b| && b[..|a|] == a
    decreases |a|
  {
    hide FirstComponent;
    FirstOfJoin(b);
    FirstOfLonger(a, rest);
    hide Join;
    assert b[0] == a[0] && |b| > 1;
    if |a| > 1 {
      ComponentsOf(a[1..], rest, b[1..]);
      assert b[..|a|] == [b[0]] + b[1..][..|a| - 1];
      assert a == [a[0]] + a[1..];
    }
  }

  lemma ContainsPrefix(directory: seq<string>, path: seq<string>)
    requires AllPlain(directory) && AllPlain(path) && directory != [] && path != []
    requires PathContains(Join(directory), Join(path)) && Join(directory) != ""
    ensures |directory| < |path| && path[..|directory|] == directory
  {
    hide Join, AllPlain;
    var d, p := Join(directory), Join(path);
    assert p == d + "/" + p[|d| + 1..];
    ComponentsOf(directory, p[|d| + 1..], path);
  }

  lemma PrefixContains(directory: seq<string>, path: seq<string>)
    requires directory != [] && |directory| < |path| && path[..|directory|] == directory
    ensures PathContains(Join(directory), Join(path))
  {
    hide Join;
    var d, p := Join(directory), Join(path);
    assert path == directory + path[|directory|..];
    JoinConcat(directory, path[|directory|..]);
    assert p[..|d|] == d && p[|d|] == '/';
  }

  /** A directory contains a path exactly when its components are a proper prefix of
      the path's; the empty path, the root of the workspace, contains everything. */
  lemma ContainsExact(directory: seq<string>, path: seq<string>)
    requires AllPlain(directory) && AllPlain(path) && path != []
    ensures PathContains(Join(directory), Join(path)) <==>
              |directory| < |path| && path[..|directory|] == directory
  {
    hide Join, AllPlain, PathContains;
    if directory == [] {
      RootContains(path);
      assert path[..0] == [];
    } else {
      NotEmpty(directory);
      if PathContains(Join(directory), Join(path)) { ContainsPrefix(directory, path); }
      if |directory| < |path| && path[..|directory|] == directory { PrefixContains(directory, path); }
    }
  }

  lemma RootContains(path: seq<string>)
    ensures PathContains(Join([]), Join(path))
  {
    JoinNothing();
  }

  lemma JoinNothing()
    ensures Join([]) == ""
  {
  }

  lemma NotEmpty(cs: seq<string>)
    requires cs != [] && AllPlain(cs)
    ensures Join(cs) != ""
  {
    JoinPlain(cs);
  }

  /** Two keys collide exactly when they are the same resource or the same path, or
      one is a directory above the other; the workspace root is above everything. */
  lemma OverlapMeans(left: ResourceKey, right: ResourceKey, a: seq<string>, b: seq<string>)
    requires AllPlain(a) && AllPlain(b) && left.path == Join(a) && right.path == Join(b)
    ensures Overlap(left, right) <==>
              && left.workspace == right.workspace
              && (|| left.id == right.id
                  || a == b
                  || (left.id.kind == DirectoryTree && |a| < |b| && b[..|a|] == a)
                  || (right.id.kind == DirectoryTree && |b| < |a| && a[..|b|] == b))
    ensures Overlap(left, right) == Overlap(right, left)
  {
    hide Join, AllPlain, PathContains;
    SamePath(a, b);
    ContainsOrSame(a, b);
    ContainsOrSame(b, a);
  }

  lemma SamePath(a: seq<string>, b: seq<string>)
    requires AllPlain(a) && AllPlain(b)
    ensures Join(a) == Join(b) <==> a == b
  {
    hide Join, AllPlain;
    JoinNothing();
    if a != [] { NotEmpty(a); }
    if b != [] { NotEmpty(b); }
    if a != [] && b != [] && Join(a) == Join(b) { JoinInjective(a, b); }
  }

  /** Nothing but the root itself contains the root. */
  lemma ContainsOrSame(directory: seq<string>, path: seq<string>)
    requires AllPlain(directory) && AllPlain(path)
    ensures PathContains(Join(directory), Join(path)) <==>
              (|directory| < |path| && path[..|directory|] == directory) || (directory == [] && path == [])
  {
    hide Join, AllPlain;
    if path == [] {
      JoinNothing();
      if directory != [] { NotEmpty(directory); }
    } else {
      hide PathContains;
      ContainsExact(directory, path);
    }
  }
}
