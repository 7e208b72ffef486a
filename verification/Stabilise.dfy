/**
 * Self-stabilisation: what one complete pass, and a second one, leave in the index, starting
 * from any tables that any history of passes can produce; and when a pass throws.
 */
module Stabilise {
  import opened Common
  import opened Tree
  import opened Store
  import opened Pass
  import opened Integrity
  import opened Paths

  // ---------------------------------------------------------------- when the scan throws

  /** An accessible entry in a directory that failed the access check. */
  ghost predicate Orphan(vs: seq<Visit>, v: Visit) {
    v.node.accessible && exists u :: u in vs && ParentOf(u, v) && !u.node.accessible
  }

  ghost predicate AccessibleDir(v: Visit, p: Path) {
    v.node.accessible && v.node.Dir? && v.FullPath() == p
  }

  /** Beyond the root, the cache holds the accessible directories among the first `n` visits. */
  ghost predicate CacheHolds(cache: Cache, vs: seq<Visit>, n: nat)
    requires n <= |vs|
  {
    forall p: Path :: |p| >= 2 ==> (p in cache <==> exists i :: 0 <= i < n && AccessibleDir(vs[i], p))
  }

  ghost predicate Listing(vs: seq<Visit>) {
    DistinctPaths(vs) && ParentsFirst(vs, 1) && forall v :: v in vs ==> Placed(v)
  }

  lemma ListingOfRun(run: Run)
    requires run.Valid()
    ensures Listing(run.Reached())
  {
    PreorderDistinct(run.tree, [run.root], IndexerOptions());
    PreorderParentsFirst(run.tree, [run.root], IndexerOptions());
    forall v | v in run.Reached()
      ensures Placed(v)
    {
      assert v in run.Visits();
      PreorderUnder(run.tree, [run.root], IndexerOptions(), v);
    }
    forall j | 0 <= j < |run.Reached()| && |run.Reached()[j].dir| > 1
      ensures exists i :: 0 <= i < j && ParentOf(run.Reached()[i], run.Reached()[j])
    {
      var i :| 0 <= i < j && ParentOf(run.Visits()[i], run.Visits()[j]);
      assert ParentOf(run.Reached()[i], run.Reached()[j]);
    }
  }

  ghost predicate Refused(cache: Cache, v: Visit) {
    v.node.accessible && v.dir !in cache && v.level > 1
  }

  function CachedAfter(cache: Cache, v: Visit): set<Path> {
    cache.Keys + (if v.node.accessible then {v.dir} else {}) + (if v.node.accessible && v.node.Dir? then {v.FullPath()} else {})
  }

  lemma ManipulateShape(db: Db, cfg: Config, cache: Cache, v: Visit)
    ensures var m := Manipulate(db, cfg, cache, v);
            && (m.threw <==> Refused(cache, v))
            && (!m.threw ==> m.cache.Keys == CachedAfter(cache, v))
  {
  }

  lemma RefusedIsOrphan(cache: Cache, vs: seq<Visit>, n: nat)
    requires Listing(vs) && n < |vs| && CacheHolds(cache, vs, n)
    ensures Refused(cache, vs[n]) <==> Orphan(vs, vs[n])
  {
    var v := vs[n];
    assert v in vs && Placed(v);
    if |v.dir| > 1 {
      var i :| 0 <= i < n && ParentOf(vs[i], v);
      assert vs[i] in vs;
      assert v.dir in cache <==> vs[i].node.accessible by {
        if k :| 0 <= k < n && AccessibleDir(vs[k], v.dir) {
          OneVisitPerPath(vs, vs[i], vs[k]);
        }
        assert vs[i].node.accessible ==> AccessibleDir(vs[i], v.dir);
      }
      forall u | u in vs && ParentOf(u, v)
        ensures u == vs[i]
      {
        OneVisitPerPath(vs, u, vs[i]);
      }
    } else if u :| u in vs && ParentOf(u, v) {
      assert Placed(u) && |u.FullPath()| >= 2;
    }
  }

  lemma CacheHoldsNext(cache: Cache, after: Cache, vs: seq<Visit>, n: nat)
    requires Listing(vs) && n < |vs| && CacheHolds(cache, vs, n)
    requires !Refused(cache, vs[n]) && after.Keys == CachedAfter(cache, vs[n])
    ensures CacheHolds(after, vs, n + 1)
  {
    var v := vs[n];
    assert v in vs && Placed(v);
    forall p: Path | |p| >= 2
      ensures p in after <==> exists i :: 0 <= i < n + 1 && AccessibleDir(vs[i], p)
    {
      if p in cache {
        var i :| 0 <= i < n && AccessibleDir(vs[i], p);
        assert i < n + 1 && p in after.Keys;
      } else if p in after.Keys {
        assert AccessibleDir(vs[n], p);
      } else if i :| 0 <= i < n + 1 && AccessibleDir(vs[i], p) {
        assert i < n ==> p in cache;
      }
    }
  }

  ghost predicate OrphanFrom(vs: seq<Visit>, n: nat) {
    exists j :: n <= j < |vs| && Orphan(vs, vs[j])
  }

  lemma OrphanFromNext(vs: seq<Visit>, n: nat)
    requires n < |vs|
    ensures OrphanFrom(vs, n) <==> Orphan(vs, vs[n]) || OrphanFrom(vs, n + 1)
  {
    hide Orphan;
  }

  /** A scan of what is left from visit `n` on throws there or later. */
  lemma ScanFrom(db: Db, cfg: Config, cache: Cache, vs: seq<Visit>, n: nat)
    requires n < |vs|
    ensures var m := Manipulate(db, cfg, cache, vs[n]);
            ScanAll(db, cfg, cache, vs[n..]).threw <==> m.threw || ScanAll(Exec(db, m.stmts), cfg, m.cache, vs[n + 1..]).threw
  {
    hide Manipulate; hide Exec;
    assert vs[n..][0] == vs[n] && vs[n..][1..] == vs[n + 1..];
  }

  lemma {:induction false} ScanThrows(db: Db, cfg: Config, cache: Cache, vs: seq<Visit>, n: nat)
    requires Listing(vs) && n <= |vs| && CacheHolds(cache, vs, n)
    ensures ScanAll(db, cfg, cache, vs[n..]).threw <==> OrphanFrom(vs, n)
    decreases |vs| - n
  {
    if n < |vs| {
      hide Manipulate; hide Orphan; hide Refused; hide Listing; hide CacheHolds; hide CachedAfter; hide Exec; hide ScanAll; hide OrphanFrom;
      var m := Manipulate(db, cfg, cache, vs[n]);
      ManipulateShape(db, cfg, cache, vs[n]);
      RefusedIsOrphan(cache, vs, n);
      ScanFrom(db, cfg, cache, vs, n);
      OrphanFromNext(vs, n);
      if !m.threw {
        CacheHoldsNext(cache, m.cache, vs, n);
        ScanThrows(Exec(db, m.stmts), cfg, m.cache, vs, n + 1);
      }
    }
  }

  /**
   * The "Undefined behavior" exception is raised exactly when some accessible entry is found in a
   * directory that failed the access check; in particular never if every directory passes it.
   */
  lemma ThrowsExactly(db: Db, run: Run)
    requires run.Valid()
    ensures ScanAll(db, run.cfg, map[], run.Reached()).threw <==> exists v :: v in run.Reached() && Orphan(run.Reached(), v)
    ensures (forall v :: v in run.Visits() && v.node.Dir? ==> v.node.accessible) ==>
              !ScanAll(db, run.cfg, map[], run.Reached()).threw
  {
    var vs := run.Reached();
    ListingOfRun(run);
    ScanThrows(db, run.cfg, map[], vs, 0);
    assert vs[0..] == vs;
    if v :| v in vs && Orphan(vs, v) {
      var j :| 0 <= j < |vs| && vs[j] == v;
      assert Orphan(vs, vs[j]);
      var u :| u in vs && ParentOf(u, v) && !u.node.accessible;
      assert u in run.Visits();
    }
  }

  // ---------------------------------------------------------------- which paths are marked

  ghost predicate ReachedBy(v: Visit, p: Path) {
    v.node.accessible && v.dir != [] && (p == v.FullPath() || p == v.dir[..1])
  }

  /** The paths a scan over `vs` marks: every accessible entry, and the root if there is one. */
  ghost predicate Reaches(vs: seq<Visit>, p: Path) {
    exists v :: v in vs && ReachedBy(v, p)
  }

  lemma VisitStructure(db: Db, cfg: Config, cache: Cache, v: Visit)
    requires Structure(db) && FreshIds(cfg.rowids) && Placed(v) && CacheOk(db, cache)
    ensures Structure(Exec(db, Manipulate(db, cfg, cache, v).stmts))
  {
    var ctx := Ctx(AnyHistory, cfg.hash, [[v]]);
    ManipulateSound(ctx, db, cfg, cache, v);
    SoundAtEnd(ctx, db, Manipulate(db, cfg, cache, v).stmts);
  }

  /** A scan that goes on is its first visit, then the scan of the others from where that ended. */
  lemma ScanStep(db: Db, cfg: Config, cache: Cache, vs: seq<Visit>)
    requires Structure(db) && FreshIds(cfg.rowids) && CacheOk(db, cache)
    requires vs != [] && Placed(vs[0])
    ensures var m := Manipulate(db, cfg, cache, vs[0]);
            var mid := Exec(db, m.stmts);
            && Structure(mid) && CacheOk(mid, m.cache)
            && (m.threw ==> ScanAll(db, cfg, cache, vs) == m)
            && (!m.threw ==>
                  && Exec(db, ScanAll(db, cfg, cache, vs).stmts) == Exec(mid, ScanAll(mid, cfg, m.cache, vs[1..]).stmts)
                  && ScanAll(db, cfg, cache, vs).threw == ScanAll(mid, cfg, m.cache, vs[1..]).threw)
  {
    var m := Manipulate(db, cfg, cache, vs[0]);
    VisitStructure(db, cfg, cache, vs[0]);
    ManipulateCache(db, cfg, cache, vs[0]);
    ExecConcat(db, m.stmts, ScanAll(Exec(db, m.stmts), cfg, m.cache, vs[1..]).stmts);
  }

  lemma ReachesFirst(vs: seq<Visit>, p: Path)
    requires vs != []
    ensures Reaches(vs, p) <==> ReachedBy(vs[0], p) || Reaches(vs[1..], p)
  {
    if v :| v in vs && ReachedBy(v, p) {
      assert v == vs[0] || v in vs[1..];
    }
    if v :| v in vs[1..] && ReachedBy(v, p) {
      assert v in vs;
    }
    assert vs[0] in vs;
  }

  lemma VisitMarks(db: Db, cfg: Config, cache: Cache, v: Visit, p: Path)
    requires Structure(db) && FreshIds(cfg.rowids) && Placed(v) && CacheOk(db, cache)
    requires !Manipulate(db, cfg, cache, v).threw
    ensures MarkedAt(Exec(db, Manipulate(db, cfg, cache, v).stmts), p) <==> MarkedAt(db, p) || ReachedBy(v, p)
  {
    if v.node.accessible {
      VisitRowAt(db, cfg, cache, v, p);
    }
  }

  /** A scan that does not throw marks exactly the paths it reaches, on top of those already marked. */
  lemma {:induction false} ScanMarks(db: Db, cfg: Config, cache: Cache, vs: seq<Visit>, p: Path)
    requires Structure(db) && FreshIds(cfg.rowids) && CacheOk(db, cache)
    requires forall v :: v in vs ==> Placed(v)
    requires !ScanAll(db, cfg, cache, vs).threw
    ensures MarkedAt(Exec(db, ScanAll(db, cfg, cache, vs).stmts), p) <==> MarkedAt(db, p) || Reaches(vs, p)
    ensures Structure(Exec(db, ScanAll(db, cfg, cache, vs).stmts))
    decreases |vs|
  {
    if vs != [] {
      var m := Manipulate(db, cfg, cache, vs[0]);
      var mid := Exec(db, m.stmts);
      ScanStep(db, cfg, cache, vs);
      VisitMarks(db, cfg, cache, vs[0], p);
      ScanMarks(mid, cfg, m.cache, vs[1..], p);
      ReachesFirst(vs, p);
    }
  }

  lemma SweptEntry(db: Db, id: nat)
    ensures id in Apply(db, Sweep).entries <==> Marked(db, id)
    ensures id in Apply(db, Sweep).entries ==> Apply(db, Sweep).entries[id] == db.entries[id].(alive := true)
  {
  }

  lemma SweptRowKept(db: Db, id: nat, p: Path)
    requires Structure(db)
    ensures UniqueKeys(db) && UniqueKeys(Apply(db, Sweep))
    ensures Denotes(db, id, p) ==> id in db.entries
    ensures id in Apply(db, Sweep).entries <==> Marked(db, id)
    ensures id in Apply(db, Sweep).entries ==> Apply(db, Sweep).entries[id] == db.entries[id].(alive := true)
  {
    hide Apply; hide Forest; hide RootRows; hide BlocksOwned; hide MarksClosed;
    SweepKeepsStructure(db);
    SweptEntry(db, id);
  }

  lemma SweepKeepsMarkedPaths(db: Db, p: Path)
    requires Structure(db)
    ensures HasRow(Apply(db, Sweep), p) <==> MarkedAt(db, p)
    ensures !MarkedAt(Apply(db, Sweep), p)
  {
    hide Apply; hide Structure; hide UniqueKeys; hide Denotes;
    var to := Apply(db, Sweep);
    if id: nat :| Denotes(to, id, p) {
      SweptRowKept(db, id, p);
      SweepKeepsMarked(db, id, p);
      RowAtIs(db, id, p);
      RowAtIs(to, id, p);
    }
    if MarkedAt(db, p) {
      var id: nat :| Denotes(db, id, p);
      SweptRowKept(db, id, p);
      RowAtIs(db, id, p);
      SweepKeepsMarked(db, id, p);
    }
  }

  lemma SweepRowAt(db: Db, p: Path)
    requires Structure(db) && MarkedAt(db, p)
    ensures RowAt(Apply(db, Sweep), p) == Some(RowAt(db, p).value.(alive := true))
  {
    hide Apply; hide Structure; hide UniqueKeys; hide Denotes;
    var id: nat :| Denotes(db, id, p);
    SweptRowKept(db, id, p);
    RowAtIs(db, id, p);
    SweepKeepsMarked(db, id, p);
    RowAtIs(Apply(db, Sweep), id, p);
  }

  /**
   * A pass that gets to its sweep, from any integral tables and whether or not the shutdown flag
   * cut it short: the rows left are those of the paths it reached and of the paths some interrupted
   * pass had left marked; nothing else survives, nothing is missing.
   */
  lemma SweptPass(db: Db, run: Run, p: Path)
    requires Structure(db) && run.Valid() && run.Sweeps()
    requires !ScanAll(db, run.cfg, map[], run.Reached()).threw
    ensures HasRow(AfterRun(db, run), p) <==> MarkedAt(db, p) || Reaches(run.Reached(), p)
    ensures !MarkedAt(AfterRun(db, run), p) && Structure(AfterRun(db, run))
  {
    var scan := ScanAll(db, run.cfg, map[], run.Reached());
    ListingOfRun(run);
    ScanMarks(db, run.cfg, map[], run.Reached(), p);
    ExecConcat(db, scan.stmts, [Sweep]);
    ExecFew(Exec(db, scan.stmts), Sweep, Sweep, Sweep);
    SweepKeepsMarkedPaths(Exec(db, scan.stmts), p);
    SweepKeepsStructure(Exec(db, scan.stmts));
  }

  /** No accessible entry lies in a directory that fails the access check. */
  ghost predicate NoOrphans(run: Run) {
    forall v :: v in run.Visits() ==> !Orphan(run.Visits(), v)
  }

  /**
   * Self-stabilisation: whatever history of complete, stopped, throwing or crashed passes came
   * before, two complete passes leave exactly one row for each path of the tree.
   */
  lemma TwoPassesStabilise(hash: Hasher, history: seq<Run>, first: Run, second: Run, p: Path)
    requires HistoryAllowed(AnyHistory, hash, history)
    requires first.Valid() && second.Valid() && first.end.Completes? && second.end.Completes?
    requires NoOrphans(first) && NoOrphans(second)
    ensures var db := AfterRun(AfterRun(AfterHistory(history), first), second);
            && (HasRow(db, p) <==> Reaches(second.Visits(), p))
            && (forall i, j :: Denotes(db, i, p) && Denotes(db, j, p) ==> i == j)
            && (second.Visits() == [] ==> db.entries == map[])
  {
    var start := AfterHistory(history);
    var mid := AfterRun(start, first);
    HistorySound(AnyHistory, hash, history);
    ThrowsExactly(start, first);
    SweptPass(start, first, p);
    ThrowsExactly(mid, second);
    SweptPass(mid, second, p);
    var db := AfterRun(mid, second);
    OneRowPerPath(db);
    if second.Visits() == [] && db.entries != map[] {
      var id :| id in db.entries;
      var q :| Denotes(db, id, q);
      SweptPass(start, first, q);
      SweptPass(mid, second, q);
    }
  }

  // ---------------------------------------------------------------- the kind of each row

  /** The row found at a path has the other kind, and the stored time hides it from the pass. */
  ghost predicate KindHidden(db: Db, cfg: Config, v: Visit) {
    var r := RowAt(db, v.FullPath());
    cfg.modifiedOnly && r.Some? && r.value.isDir != v.node.Dir? &&
    (ReadTime(r.value) == v.node.ver.mtime || v.node.ver.mtime == 0)
  }

  ghost predicate AllElsewhere(vs: seq<Visit>, p: Path) {
    |p| >= 2 && forall i :: 0 <= i < |vs| ==> Placed(vs[i]) && vs[i].FullPath() != p
  }

  lemma VisitElsewhere(db: Db, cfg: Config, cache: Cache, v: Visit, p: Path)
    requires Structure(db) && FreshIds(cfg.rowids) && Placed(v) && CacheOk(db, cache)
    requires |p| >= 2 && v.FullPath() != p
    ensures RowAt(Exec(db, Manipulate(db, cfg, cache, v).stmts), p) == RowAt(db, p)
  {
    if Processed(cache, v) {
      VisitRowAt(db, cfg, cache, v, p);
    }
  }

  lemma {:induction false} VisitsElsewhere(db: Db, cfg: Config, cache: Cache, vs: seq<Visit>, p: Path)
    requires Structure(db) && FreshIds(cfg.rowids) && CacheOk(db, cache) && AllElsewhere(vs, p)
    ensures RowAt(Exec(db, ScanAll(db, cfg, cache, vs).stmts), p) == RowAt(db, p)
    decreases |vs|
  {
    if vs != [] {
      var m := Manipulate(db, cfg, cache, vs[0]);
      ScanStep(db, cfg, cache, vs);
      VisitElsewhere(db, cfg, cache, vs[0], p);
      if !m.threw {
        VisitsElsewhere(Exec(db, m.stmts), cfg, m.cache, vs[1..], p);
      }
    }
  }

  ghost predicate KindIs(r: Option<Row>, kind: bool) {
    r.Some? && !r.value.alive && r.value.isDir == kind
  }

  lemma FirstKind(db: Db, cfg: Config, cache: Cache, vs: seq<Visit>)
    requires Structure(db) && FreshIds(cfg.rowids) && CacheOk(db, cache)
    requires vs != [] && Placed(vs[0]) && vs[0].node.accessible && AllElsewhere(vs[1..], vs[0].FullPath())
    requires !ScanAll(db, cfg, cache, vs).threw
    ensures KindIs(RowAt(Exec(db, ScanAll(db, cfg, cache, vs).stmts), vs[0].FullPath()),
                   KindAfter(cfg, RowAt(db, vs[0].FullPath()), vs[0].node))
  {
    var m := Manipulate(db, cfg, cache, vs[0]);
    ScanStep(db, cfg, cache, vs);
    VisitRowAt(db, cfg, cache, vs[0], vs[0].FullPath());
    VisitsElsewhere(Exec(db, m.stmts), cfg, m.cache, vs[1..], vs[0].FullPath());
  }

  /** The kind a scan leaves at a path it visits depends only on the row it found there. */
  lemma {:induction false} ScanKind(db: Db, cfg: Config, cache: Cache, vs: seq<Visit>, v: Visit)
    requires Structure(db) && FreshIds(cfg.rowids) && CacheOk(db, cache)
    requires v in vs && v.node.accessible && Placed(v)
    requires forall i :: 0 <= i < |vs| ==> Placed(vs[i])
    requires DistinctPaths(vs)
    requires !ScanAll(db, cfg, cache, vs).threw
    ensures KindIs(RowAt(Exec(db, ScanAll(db, cfg, cache, vs).stmts), v.FullPath()),
                   KindAfter(cfg, RowAt(db, v.FullPath()), v.node))
    decreases |vs|
  {
    if vs[0] == v {
      FirstKind(db, cfg, cache, vs);
    } else {
      var m := Manipulate(db, cfg, cache, vs[0]);
      ScanStep(db, cfg, cache, vs);
      if vs[0].FullPath() == v.FullPath() {
        OneVisitPerPath(vs, vs[0], v);
      }
      VisitElsewhere(db, cfg, cache, vs[0], v.FullPath());
      ScanKind(Exec(db, m.stmts), cfg, m.cache, vs[1..], v);
    }
  }

  /** After a complete pass a row has the right kind exactly when the stored time did not hide a change of kind. */
  lemma KindExactly(db: Db, run: Run, v: Visit)
    requires Structure(db) && run.Valid() && run.end.Completes? && v in run.Visits() && v.node.accessible
    requires !ScanAll(db, run.cfg, map[], run.Visits()).threw
    ensures var r := RowAt(AfterRun(db, run), v.FullPath());
            r.Some? && (r.value.isDir == v.node.Dir? <==> !KindHidden(db, run.cfg, v))
  {
    var vs := run.Visits();
    var scan := ScanAll(db, run.cfg, map[], vs);
    var end := Exec(db, scan.stmts);
    ListingOfRun(run);
    ScanKind(db, run.cfg, map[], vs, v);
    ScanMarks(db, run.cfg, map[], vs, v.FullPath());
    ExecConcat(db, scan.stmts, [Sweep]);
    ExecFew(end, Sweep, Sweep, Sweep);
    SweepRowAt(end, v.FullPath());
  }
}
