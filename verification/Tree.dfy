/**
 * A snapshot of a directory tree and the order in which it is reported.
 *
 * `Preorder` is the plain recursive meaning of a directory traversal; the explicit-stack
 * traversal of module Reader is proved against it.
 */
module Tree {
  import opened Common

  /** A path as its components; the first one is the root path as it was given. */
  type Path = seq<string>

  /** One state of a file: its time, its size and what reading it to the end delivers. */
  datatype Version = Version(mtime: nat, size: nat, chunks: seq<Bytes>)

  /** What happens when the file is read during the pass. */
  datatype Io = OpenFails | ReadFailsAfter(delivered: nat) | ReadsToEnd

  datatype Node =
    | File(name: string, ver: Version, accessible: bool, io: Io)
    | Dir(name: string, ver: Version, accessible: bool, kids: seq<Node>)

  /** One call of the manipulator: `path_`, `level_` and the entry the reader stands on. */
  datatype Visit = Visit(dir: Path, level: nat, node: Node) {
    function FullPath(): Path {
      dir + [node.name]
    }
  }

  /** `matches` stands for the two regular expressions. */
  datatype Options = Options(recursive: bool, listDirectories: bool, maxLevel: nat, matches: string -> bool)

  /** Names the reader never reports when `list_dot_` and `list_dotdot_` are off. */
  predicate Skipped(name: string) {
    name == "" || name == "." || name == ".."
  }

  predicate Reported(n: Node, opts: Options) {
    opts.matches(n.name) && (n.Dir? ==> opts.listDirectories)
  }

  predicate Descends(n: Node, level: nat, opts: Options) {
    n.Dir? && opts.recursive && (opts.maxLevel == 0 || level <= opts.maxLevel)
  }

  function Preorder(kids: seq<Node>, dir: Path, opts: Options): seq<Visit>
    decreases kids
  {
    if kids == [] then []
    else
      var n := kids[0];
      if Skipped(n.name) then Preorder(kids[1..], dir, opts)
      else
        (if Reported(n, opts) then [Visit(dir, |dir|, n)] else []) +
        (if Descends(n, |dir|, opts) then Preorder(n.kids, dir + [n.name], opts) else []) +
        Preorder(kids[1..], dir, opts)
  }

  /** Reads deliver between one byte and one block each. */
  predicate ValidChunks(chunks: seq<Bytes>) {
    forall i :: 0 <= i < |chunks| ==> 0 < |chunks[i]| <= BLOCK_SIZE
  }

  /** A snapshot the file system can show: names are unique in a directory, reads are well formed. */
  predicate ValidTree(kids: seq<Node>)
    decreases kids
  {
    && (forall i, j :: 0 <= i < j < |kids| && !Skipped(kids[i].name) ==> kids[i].name != kids[j].name)
    && (forall i :: 0 <= i < |kids| ==>
          && ValidChunks(kids[i].ver.chunks)
          && (kids[i].File? && kids[i].io.ReadFailsAfter? ==> kids[i].io.delivered <= |kids[i].ver.chunks|)
          && (kids[i].Dir? ==> ValidTree(kids[i].kids)))
  }

  // ---------------------------------------------------------------- what a preorder looks like

  /** `v` lies in the part of the tree listed by `kids` under `dir`. */
  ghost predicate Under(v: Visit, kids: seq<Node>, dir: Path) {
    && v.level == |v.dir| >= |dir| && v.dir[..|dir|] == dir
    && (exists i :: 0 <= i < |kids| && !Skipped(kids[i].name) && v.FullPath()[|dir|] == kids[i].name)
  }

  lemma UnderLater(v: Visit, kids: seq<Node>, dir: Path)
    requires kids != [] && Under(v, kids[1..], dir)
    ensures Under(v, kids, dir)
  {
    var i :| 0 <= i < |kids[1..]| && !Skipped(kids[1..][i].name) && v.FullPath()[|dir|] == kids[1..][i].name;
    assert kids[1..][i] == kids[i + 1];
  }

  lemma UnderFirst(v: Visit, kids: seq<Node>, dir: Path)
    requires kids != [] && kids[0].Dir? && !Skipped(kids[0].name) && Under(v, kids[0].kids, dir + [kids[0].name])
    ensures Under(v, kids, dir)
  {
    assert v.dir[..|dir|] == v.dir[..|dir| + 1][..|dir|] == dir;
    assert v.FullPath()[|dir|] == v.dir[..|dir| + 1][|dir|] == kids[0].name;
  }

  lemma {:induction false} PreorderUnder(kids: seq<Node>, dir: Path, opts: Options, v: Visit)
    requires v in Preorder(kids, dir, opts)
    ensures Under(v, kids, dir)
    decreases kids
  {
    var n := kids[0];
    if v in Preorder(kids[1..], dir, opts) {
      PreorderUnder(kids[1..], dir, opts, v);
      UnderLater(v, kids, dir);
    } else if !Skipped(n.name) && v == Visit(dir, |dir|, n) {
      assert v.FullPath()[|dir|] == kids[0].name;
    } else {
      PreorderUnder(n.kids, dir + [n.name], opts, v);
      UnderFirst(v, kids, dir);
    }
  }

  ghost predicate DistinctPaths(vs: seq<Visit>) {
    forall i, j :: 0 <= i < j < |vs| ==> vs[i].FullPath() != vs[j].FullPath()
  }

  lemma DistinctConcat(a: seq<Visit>, b: seq<Visit>)
    requires DistinctPaths(a) && DistinctPaths(b)
    requires forall u, v :: u in a && v in b ==> u.FullPath() != v.FullPath()
    ensures DistinctPaths(a + b)
  {
    forall i, j | 0 <= i < j < |a + b|
      ensures (a + b)[i].FullPath() != (a + b)[j].FullPath()
    {
      if i < |a| <= j {
        assert a[i] in a && b[j - |a|] in b;
      }
    }
  }

  /** No path is reported twice. */
  lemma {:induction false} PreorderDistinct(kids: seq<Node>, dir: Path, opts: Options)
    requires ValidTree(kids)
    ensures DistinctPaths(Preorder(kids, dir, opts))
    decreases kids
  {
    if kids != [] {
      var n := kids[0];
      PreorderDistinct(kids[1..], dir, opts);
      if !Skipped(n.name) {
        var here: seq<Visit> := if Reported(n, opts) then [Visit(dir, |dir|, n)] else [];
        var below: seq<Visit> := if Descends(n, |dir|, opts) then Preorder(n.kids, dir + [n.name], opts) else [];
        var after := Preorder(kids[1..], dir, opts);
        if Descends(n, |dir|, opts) {
          PreorderDistinct(n.kids, dir + [n.name], opts);
        }
        forall v | v in below
          ensures |v.dir| > |dir| && v.FullPath()[|dir|] == n.name
        {
          PreorderUnder(n.kids, dir + [n.name], opts, v);
          assert v.dir[..|dir| + 1][|dir|] == n.name;
        }
        forall v | v in after
          ensures |v.dir| >= |dir| && v.FullPath()[|dir|] != n.name
        {
          PreorderUnder(kids[1..], dir, opts, v);
        }
        forall u, v | u in here + below && v in after
          ensures u.FullPath() != v.FullPath()
        {
          assert u.FullPath()[|dir|] == n.name;
        }
        DistinctConcat(here, below);
        DistinctConcat(here + below, after);
      }
    }
  }

  /** `u` is the visit of the directory in which `v` was found. */
  ghost predicate ParentOf(u: Visit, v: Visit) {
    u.node.Dir? && u.FullPath() == v.dir
  }

  ghost predicate ParentsFirst(vs: seq<Visit>, depth: nat) {
    forall j :: 0 <= j < |vs| && |vs[j].dir| > depth ==> exists i :: 0 <= i < j && ParentOf(vs[i], vs[j])
  }

  lemma ParentsConcat(a: seq<Visit>, b: seq<Visit>, depth: nat)
    requires ParentsFirst(a, depth) && ParentsFirst(b, depth)
    ensures ParentsFirst(a + b, depth)
  {
    forall j | 0 <= j < |a + b| && |(a + b)[j].dir| > depth
      ensures exists i :: 0 <= i < j && ParentOf((a + b)[i], (a + b)[j])
    {
      if j >= |a| {
        var i :| 0 <= i < j - |a| && ParentOf(b[i], b[j - |a|]);
        assert ParentOf((a + b)[i + |a|], (a + b)[j]);
      } else {
        var i :| 0 <= i < j && ParentOf(a[i], a[j]);
        assert ParentOf((a + b)[i], (a + b)[j]);
      }
    }
  }

  /** A directory followed by what it contains. */
  lemma FirstThenBelow(top: Visit, below: seq<Visit>)
    requires ParentsFirst(below, |top.dir| + 1)
    requires forall v :: v in below ==> |v.dir| > |top.dir| && (|v.dir| == |top.dir| + 1 ==> ParentOf(top, v))
    ensures ParentsFirst([top] + below, |top.dir|)
  {
    hide ParentOf; hide ParentsFirst;
    var vs := [top] + below;
    forall j | 0 <= j < |vs| && |vs[j].dir| > |top.dir|
      ensures exists i :: 0 <= i < j && ParentOf(vs[i], vs[j])
    {
      var v := below[j - 1];
      assert v in below;
      if |v.dir| == |top.dir| + 1 {
        assert ParentOf(vs[0], vs[j]);
      } else {
        var k := ParentAt(below, |top.dir| + 1, j - 1);
        assert ParentOf(vs[k + 1], vs[j]);
      }
    }
    AreParentsFirst(vs, |top.dir|);
  }

  lemma AreParentsFirst(vs: seq<Visit>, depth: nat)
    requires forall j :: 0 <= j < |vs| && |vs[j].dir| > depth ==> exists i :: 0 <= i < j && ParentOf(vs[i], vs[j])
    ensures ParentsFirst(vs, depth)
  {
    hide ParentOf;
  }

  lemma ParentAt(vs: seq<Visit>, depth: nat, j: nat) returns (i: nat)
    requires j < |vs| && ParentsFirst(vs, depth) && |vs[j].dir| > depth
    ensures i < j && ParentOf(vs[i], vs[j])
  {
    hide ParentOf;
    var k :| 0 <= k < j && ParentOf(vs[k], vs[j]);
    i := k;
  }

  lemma DirectlyBelow(n: Node, dir: Path, opts: Options, v: Visit)
    requires n.Dir? && v in Preorder(n.kids, dir + [n.name], opts)
    ensures |v.dir| >= |dir| + 1
    ensures |v.dir| == |dir| + 1 ==> ParentOf(Visit(dir, |dir|, n), v)
  {
    PreorderUnder(n.kids, dir + [n.name], opts, v);
    if |v.dir| == |dir| + 1 {
      assert v.dir == v.dir[..|dir| + 1];
    }
  }

  /** When every directory is reported, directories come before what they contain. */
  lemma {:induction false} PreorderParentsFirst(kids: seq<Node>, dir: Path, opts: Options)
    requires opts.listDirectories && forall name :: opts.matches(name)
    ensures ParentsFirst(Preorder(kids, dir, opts), |dir|)
    decreases kids
  {
    if kids != [] {
      var n := kids[0];
      PreorderParentsFirst(kids[1..], dir, opts);
      if !Skipped(n.name) {
        var here := [Visit(dir, |dir|, n)];
        var below: seq<Visit> := if Descends(n, |dir|, opts) then Preorder(n.kids, dir + [n.name], opts) else [];
        if below != [] {
          PreorderParentsFirst(n.kids, dir + [n.name], opts);
          forall v | v in below
            ensures |v.dir| > |dir| && (|v.dir| == |dir| + 1 ==> ParentOf(Visit(dir, |dir|, n), v))
          {
            DirectlyBelow(n, dir, opts, v);
          }
          FirstThenBelow(Visit(dir, |dir|, n), below);
        }
        ParentsConcat(here + below, Preorder(kids[1..], dir, opts), |dir|);
      }
    }
  }

  // ---------------------------------------------------------------- what is in it, and in what order

  /** The names of a directory's entries for itself and its parent, and the empty one. */
  predicate OrdinaryName(name: string) {
    name != "" && name != "." && name != ".."
  }

  function Names(trail: seq<Node>): (path: Path)
    ensures |path| == |trail|
  {
    seq(|trail|, i requires 0 <= i < |trail| => trail[i].name)
  }

  /** The entry `i` steps down the trail is a directory that holds the next one. */
  ghost predicate HoldsNext(trail: seq<Node>, i: nat)
    requires i + 1 < |trail|
  {
    trail[i].Dir? && trail[i + 1] in trail[i].kids
  }

  /** Besides, recursion and `max_level_` let the reader enter it. */
  ghost predicate EntersAt(trail: seq<Node>, i: nat, depth: nat, opts: Options)
    requires i + 1 < |trail|
  {
    HoldsNext(trail, i) && opts.recursive && (opts.maxLevel == 0 || depth + i <= opts.maxLevel)
  }

  /**
   * The way from the listing `kids` of `dir` down to an entry, the entry last: every step is in the
   * listing of the step before, which is a directory the options let the reader enter.
   */
  ghost predicate LeadsDown(trail: seq<Node>, kids: seq<Node>, dir: Path, opts: Options) {
    && trail != [] && trail[0] in kids
    && (forall i :: 0 <= i < |trail| ==> OrdinaryName(trail[i].name))
    && (forall i :: 0 <= i < |trail| - 1 ==> EntersAt(trail, i, |dir|, opts))
  }

  /** The entry `v` stands for is at the end of `trail`, and mask and `list_directories_` admit it. */
  ghost predicate AdmittedAt(v: Visit, trail: seq<Node>, kids: seq<Node>, dir: Path, opts: Options) {
    && LeadsDown(trail, kids, dir, opts)
    && v.node == trail[|trail| - 1] && v.dir == dir + Names(trail[..|trail| - 1]) && v.level == |v.dir|
    && opts.matches(v.node.name) && (v.node.Dir? ==> opts.listDirectories)
  }

  lemma AdmittedFirst(n: Node, kids: seq<Node>, dir: Path, opts: Options)
    requires n in kids && OrdinaryName(n.name) && opts.matches(n.name) && (n.Dir? ==> opts.listDirectories)
    ensures AdmittedAt(Visit(dir, |dir|, n), [n], kids, dir, opts)
  {
    assert dir + Names([]) == dir;
  }

  lemma AdmittedBelow(v: Visit, trail: seq<Node>, n: Node, kids: seq<Node>, dir: Path, opts: Options)
    requires n in kids && n.Dir? && OrdinaryName(n.name)
    requires opts.recursive && (opts.maxLevel == 0 || |dir| <= opts.maxLevel)
    requires AdmittedAt(v, trail, n.kids, dir + [n.name], opts)
    ensures AdmittedAt(v, [n] + trail, kids, dir, opts)
  {
    var all := [n] + trail;
    forall i | 0 <= i < |all| - 1
      ensures EntersAt(all, i, |dir|, opts)
    {
      assert i > 0 ==> EntersAt(trail, i - 1, |dir| + 1, opts);
    }
    assert Names(all[..|all| - 1]) == [n.name] + Names(trail[..|trail| - 1]);
  }

  lemma AdmittedInside(v: Visit, trail: seq<Node>, kids: seq<Node>, dir: Path, opts: Options)
    requires AdmittedAt(v, trail, kids, dir, opts) && |trail| > 1
    ensures trail[0].Dir? && AdmittedAt(v, trail[1..], trail[0].kids, dir + [trail[0].name], opts)
  {
    var rest, below := trail[1..], dir + [trail[0].name];
    forall i | 0 <= i < |rest| - 1
      ensures EntersAt(rest, i, |below|, opts)
    {
      assert EntersAt(trail, i + 1, |dir|, opts);
    }
    assert EntersAt(trail, 0, |dir|, opts);
    assert Names(trail[..|trail| - 1]) == [trail[0].name] + Names(rest[..|rest| - 1]);
  }

  lemma {:induction false} Admitted(kids: seq<Node>, dir: Path, opts: Options, v: Visit) returns (trail: seq<Node>)
    requires v in Preorder(kids, dir, opts)
    ensures AdmittedAt(v, trail, kids, dir, opts)
    decreases kids
  {
    hide AdmittedAt;
    var n := kids[0];
    if v in Preorder(kids[1..], dir, opts) {
      trail := Admitted(kids[1..], dir, opts, v);
      AdmittedLater(v, trail, kids, dir, opts);
    } else if Reported(n, opts) && v == Visit(dir, |dir|, n) {
      AdmittedFirst(n, kids, dir, opts);
      trail := [n];
    } else {
      trail := Admitted(n.kids, dir + [n.name], opts, v);
      AdmittedBelow(v, trail, n, kids, dir, opts);
      trail := [n] + trail;
    }
  }

  lemma AdmittedLater(v: Visit, trail: seq<Node>, kids: seq<Node>, dir: Path, opts: Options)
    requires kids != [] && AdmittedAt(v, trail, kids[1..], dir, opts)
    ensures AdmittedAt(v, trail, kids, dir, opts)
  {
  }

  lemma {:induction false} AdmittedIsReported(v: Visit, trail: seq<Node>, kids: seq<Node>, dir: Path, opts: Options)
    requires AdmittedAt(v, trail, kids, dir, opts)
    ensures v in Preorder(kids, dir, opts)
    decreases kids
  {
    var n := kids[0];
    assert kids == [n] + kids[1..];
    if trail[0] in kids[1..] {
      AdmittedIsReported(v, trail, kids[1..], dir, opts);
    } else if |trail| > 1 {
      AdmittedInside(v, trail, kids, dir, opts);
      assert EntersAt(trail, 0, |dir|, opts);
      AdmittedIsReported(v, trail[1..], n.kids, dir + [n.name], opts);
    } else {
      assert dir + Names([]) == dir && v == Visit(dir, |dir|, n);
    }
  }

  /**
   * A visit is made exactly for the entries that are reached through directories that may be
   * entered, under ordinary names all the way, and that the mask and `list_directories_` admit.
   */
  lemma PreorderExactly(kids: seq<Node>, dir: Path, opts: Options, v: Visit)
    ensures v in Preorder(kids, dir, opts) <==> exists trail :: AdmittedAt(v, trail, kids, dir, opts)
  {
    hide AdmittedAt; hide Preorder;
    if v in Preorder(kids, dir, opts) {
      var trail := Admitted(kids, dir, opts, v);
    }
    if trail :| AdmittedAt(v, trail, kids, dir, opts) {
      AdmittedIsReported(v, trail, kids, dir, opts);
    }
  }

  /** The way down to an entry of the tree, whatever the options: every step lies in the directory before it. */
  ghost predicate LiesBelow(trail: seq<Node>, kids: seq<Node>) {
    && trail != [] && trail[0] in kids
    && (forall i :: 0 <= i < |trail| ==> OrdinaryName(trail[i].name))
    && (forall i :: 0 <= i < |trail| - 1 ==> HoldsNext(trail, i))
  }

  /** Recursive, with directories listed, without mask and without limit the reader leaves out nothing. */
  lemma NoLimitLeadsDown(trail: seq<Node>, kids: seq<Node>, dir: Path, opts: Options)
    requires opts.recursive && opts.maxLevel == 0
    ensures LeadsDown(trail, kids, dir, opts) <==> LiesBelow(trail, kids)
  {
    if LeadsDown(trail, kids, dir, opts) {
      forall i | 0 <= i < |trail| - 1
        ensures HoldsNext(trail, i)
      {
        assert EntersAt(trail, i, |dir|, opts);
      }
    }
    if LiesBelow(trail, kids) {
      forall i | 0 <= i < |trail| - 1
        ensures EntersAt(trail, i, |dir|, opts)
      {
        assert HoldsNext(trail, i);
      }
    }
  }

  /** Everything about the entries listed first comes before anything about those listed after them. */
  lemma {:induction false} PreorderConcat(a: seq<Node>, b: seq<Node>, dir: Path, opts: Options)
    ensures Preorder(a + b, dir, opts) == Preorder(a, dir, opts) + Preorder(b, dir, opts)
    decreases |a|
  {
    hide Skipped; hide Reported; hide Descends;
    if a == [] {
      assert a + b == b;
    } else {
      assert (a + b)[0] == a[0] && (a + b)[1..] == a[1..] + b;
      PreorderConcat(a[1..], b, dir, opts);
    }
  }

  // ---------------------------------------------------------------- depth and filters

  /** The deepest level reported: one below the last level descended from. */
  lemma {:induction false} PreorderDepth(kids: seq<Node>, dir: Path, opts: Options, v: Visit)
    requires v in Preorder(kids, dir, opts)
    ensures opts.maxLevel != 0 ==> v.level <= |dir| || v.level <= opts.maxLevel + 1
    ensures !opts.recursive ==> v.level == |dir|
    decreases kids
  {
    var n := kids[0];
    if v in Preorder(kids[1..], dir, opts) {
      PreorderDepth(kids[1..], dir, opts, v);
    } else if v != Visit(dir, |dir|, n) {
      PreorderDepth(n.kids, dir + [n.name], opts, v);
    }
  }

  predicate AnyName(name: string) {
    true
  }

  /** The same traversal with every entry reported. */
  function Unfiltered(opts: Options): Options {
    opts.(listDirectories := true, matches := AnyName)
  }

  function OnlyReported(vs: seq<Visit>, opts: Options): seq<Visit>
    decreases |vs|
  {
    if vs == [] then []
    else (if Reported(vs[0].node, opts) then [vs[0]] else []) + OnlyReported(vs[1..], opts)
  }

  lemma {:induction false} OnlyReportedConcat(a: seq<Visit>, b: seq<Visit>, opts: Options)
    ensures OnlyReported(a + b, opts) == OnlyReported(a, opts) + OnlyReported(b, opts)
    decreases |a|
  {
    if a == [] {
      assert a + b == b;
    } else {
      assert (a + b)[0] == a[0] && (a + b)[1..] == a[1..] + b;
      OnlyReportedConcat(a[1..], b, opts);
    }
  }

  /** Masks and `list_directories_` decide about the calls, never about where the traversal goes. */
  lemma {:induction false} FiltersSpareDescent(kids: seq<Node>, dir: Path, opts: Options)
    ensures Preorder(kids, dir, opts) == OnlyReported(Preorder(kids, dir, Unfiltered(opts)), opts)
    decreases kids
  {
    if kids != [] {
      var n, all := kids[0], Unfiltered(opts);
      FiltersSpareDescent(kids[1..], dir, opts);
      if !Skipped(n.name) {
        var here := [Visit(dir, |dir|, n)];
        var below: seq<Visit> := if Descends(n, |dir|, opts) then Preorder(n.kids, dir + [n.name], all) else [];
        var after := Preorder(kids[1..], dir, all);
        if Descends(n, |dir|, opts) {
          FiltersSpareDescent(n.kids, dir + [n.name], opts);
        }
        OnlyReportedConcat(here + below, after, opts);
        OnlyReportedConcat(here, below, opts);
        OnlyOne(here[0], opts);
      }
    }
  }

  lemma OnlyOne(v: Visit, opts: Options)
    ensures OnlyReported([v], opts) == if Reported(v.node, opts) then [v] else []
  {
    assert [v][1..] == [];
    assert OnlyReported([v], opts) == (if Reported(v.node, opts) then [v] else []) + OnlyReported([], opts);
  }
}
