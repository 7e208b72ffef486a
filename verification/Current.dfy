/** A pass that sweeps leaves the index up to date: what it has read is what the tables say. */
module Current {
  import opened Tree
  import opened Store
  import opened Pass
  import opened Integrity
  import opened Stabilise
  import opened Incremental

  /** Row `id` is marked, stands for path `p` and records the file. */
  ghost predicate Holds(hash: Hasher, db: Db, id: nat, p: Path, f: Node)
    requires f.File?
  {
    Denotes(db, id, p) && Marked(db, id) && Records(hash, db, id, f)
  }

  /** The tables record the file at this path. */
  ghost predicate UpToDate(hash: Hasher, db: Db, p: Path, f: Node)
    requires f.File?
  {
    exists id :: Denotes(db, id, p) && id in db.entries && Records(hash, db, id, f)
  }

  /** Row and block rows of `id` are the same. */
  ghost predicate SameAt(from: Db, to: Db, id: nat) {
    && id in from.entries && id in to.entries && to.entries[id] == from.entries[id]
    && (forall no: nat :: (id, no) in to.blocks <==> (id, no) in from.blocks)
    && (forall no: nat :: (id, no) in to.blocks && (id, no) in from.blocks ==> to.blocks[(id, no)] == from.blocks[(id, no)])
  }

  lemma HoldsKept(hash: Hasher, from: Db, to: Db, id: nat, p: Path, f: Node)
    requires f.File? && Holds(hash, from, id, p, f) && SameAt(from, to, id) && Grows(from, to)
    ensures Holds(hash, to, id, p, f)
  {
    DenotesKept(from, to, id, p);
  }

  /** The root's row is not the row of a longer path. */
  lemma ParentElsewhere(db: Db, cfg: Config, cache: Cache, v: Visit, id: nat, p: Path)
    requires Structure(db) && FreshIds(cfg.rowids) && Placed(v) && CacheOk(db, cache) && Processed(cache, v)
    requires Denotes(db, id, p) && |p| >= 2
    ensures SameAt(db, Exec(db, ParentStmts(db, cfg, cache, v)), id)
  {
    if v.dir !in cache {
      EntryEffect(db, cfg, RootCols(v.dir), 0);
      assert db.entries[id].parent != 0;
    }
  }

  /** Nor is the row of another entry. */
  lemma NodeElsewhere(db: Db, cfg: Config, parent: nat, v: Visit, id: nat, p: Path)
    requires Structure(db) && FreshIds(cfg.rowids)
    requires v.dir != [] && Denotes(db, parent, v.dir) && Marked(db, parent)
    requires Denotes(db, id, p) && p != v.FullPath()
    ensures SameAt(db, Exec(db, NodeStmts(db, cfg, parent, v.node)), id)
  {
    hide NodeRow; hide EntryId; hide NodeStmts; hide Structure; hide Denotes; hide BlocksAre; hide Rehashed; hide Delivered;
    OwnsBlocks(db);
    NodeEffect(db, cfg, parent, v.node);
    NotTheNode(db, cfg, parent, v, id, p);
    assert id in db.entries by { DenotedIsRow(db, id, p); }
  }

  lemma DenotedIsRow(db: Db, id: nat, p: Path)
    requires Denotes(db, id, p)
    ensures id in db.entries
  {
  }

  lemma NotTheNode(db: Db, cfg: Config, parent: nat, v: Visit, id: nat, p: Path)
    requires Structure(db) && FreshIds(cfg.rowids)
    requires v.dir != [] && Denotes(db, parent, v.dir) && Marked(db, parent)
    requires Denotes(db, id, p) && p != v.FullPath()
    ensures id != EntryId(db, cfg, NodeCols(parent, v.node))
  {
    hide NodeRow; hide EntryId; hide Denotes;
    var nid, row := EntryId(db, cfg, NodeCols(parent, v.node)), NodeRow(db, cfg, parent, v.node);
    NodePutAllowed(db, cfg, parent, v);
    if nid == id {
      PutKeepsStructure(db, id, row);
      DenotesKept(db, Put(db, id, row), id, p);
      DenotesOnePath(Put(db, id, row), id, p, v.FullPath());
    }
  }

  lemma VisitKeeps(db: Db, cfg: Config, cache: Cache, v: Visit, id: nat, p: Path, f: Node)
    requires Structure(db) && FreshIds(cfg.rowids) && Placed(v) && CacheOk(db, cache)
    requires f.File? && |p| >= 2 && p != v.FullPath() && Holds(cfg.hash, db, id, p, f)
    ensures Holds(cfg.hash, Exec(db, Manipulate(db, cfg, cache, v).stmts), id, p, f)
  {
    if Processed(cache, v) {
      var mid, parent := Exec(db, ParentStmts(db, cfg, cache, v)), ParentId(db, cfg, cache, v);
      ParentGrows(db, cfg, cache, v);
      ParentElsewhere(db, cfg, cache, v, id, p);
      HoldsKept(cfg.hash, db, mid, id, p, f);
      NodeElsewhere(mid, cfg, parent, v, id, p);
      NodeGrows(mid, cfg, parent, v);
      HoldsKept(cfg.hash, mid, Exec(mid, NodeStmts(mid, cfg, parent, v.node)), id, p, f);
      ManipulateSplit(db, cfg, cache, v);
    }
  }

  lemma NodeHolds(db: Db, cfg: Config, parent: nat, v: Visit)
    requires Structure(db) && FreshIds(cfg.rowids) && !cfg.modifiedOnly
    requires v.dir != [] && Denotes(db, parent, v.dir) && Marked(db, parent)
    requires v.node.File? && v.node.io.ReadsToEnd?
    ensures Holds(cfg.hash, Exec(db, NodeStmts(db, cfg, parent, v.node)), EntryId(db, cfg, NodeCols(parent, v.node)), v.FullPath(), v.node)
  {
    NodeEffect(db, cfg, parent, v.node);
    NodeGrows(db, cfg, parent, v);
  }

  lemma VisitHolds(db: Db, cfg: Config, cache: Cache, v: Visit) returns (id: nat)
    requires Structure(db) && FreshIds(cfg.rowids) && !cfg.modifiedOnly && Placed(v) && CacheOk(db, cache)
    requires v.node.accessible && v.node.File? && v.node.io.ReadsToEnd? && !Manipulate(db, cfg, cache, v).threw
    ensures Holds(cfg.hash, Exec(db, Manipulate(db, cfg, cache, v).stmts), id, v.FullPath(), v.node)
  {
    var mid, parent := Exec(db, ParentStmts(db, cfg, cache, v)), ParentId(db, cfg, cache, v);
    ManipulateSplit(db, cfg, cache, v);
    ParentGrows(db, cfg, cache, v);
    NodeHolds(mid, cfg, parent, v);
    id := EntryId(mid, cfg, NodeCols(parent, v.node));
  }

  lemma {:induction false} ScanKeeps(db: Db, cfg: Config, cache: Cache, vs: seq<Visit>, id: nat, p: Path, f: Node)
    requires Structure(db) && FreshIds(cfg.rowids) && CacheOk(db, cache) && AllElsewhere(vs, p)
    requires f.File? && |p| >= 2 && Holds(cfg.hash, db, id, p, f)
    ensures Holds(cfg.hash, Exec(db, ScanAll(db, cfg, cache, vs).stmts), id, p, f)
    decreases |vs|
  {
    if vs != [] {
      var m := Manipulate(db, cfg, cache, vs[0]);
      ScanStep(db, cfg, cache, vs);
      VisitKeeps(db, cfg, cache, vs[0], id, p, f);
      if !m.threw {
        ScanKeeps(Exec(db, m.stmts), cfg, m.cache, vs[1..], id, p, f);
      }
    }
  }

  /** A full scan records every file it reads to the end, and nothing later in the scan spoils it. */
  lemma {:induction false} ScanRecords(db: Db, cfg: Config, cache: Cache, vs: seq<Visit>, v: Visit) returns (id: nat)
    requires Structure(db) && FreshIds(cfg.rowids) && !cfg.modifiedOnly && CacheOk(db, cache)
    requires v in vs && v.node.accessible && v.node.File? && v.node.io.ReadsToEnd? && Placed(v)
    requires DistinctPaths(vs) && forall i :: 0 <= i < |vs| ==> Placed(vs[i])
    requires !ScanAll(db, cfg, cache, vs).threw
    ensures Holds(cfg.hash, Exec(db, ScanAll(db, cfg, cache, vs).stmts), id, v.FullPath(), v.node)
    decreases |vs|
  {
    var m := Manipulate(db, cfg, cache, vs[0]);
    ScanStep(db, cfg, cache, vs);
    if v == vs[0] {
      id := VisitHolds(db, cfg, cache, v);
      assert forall j :: 0 <= j < |vs| - 1 ==> vs[1..][j] == vs[j + 1];
      ScanKeeps(Exec(db, m.stmts), cfg, m.cache, vs[1..], id, v.FullPath(), v.node);
    } else {
      id := ScanRecords(Exec(db, m.stmts), cfg, m.cache, vs[1..], v);
    }
  }

  lemma SweepKeepsRecords(hash: Hasher, db: Db, id: nat, p: Path, f: Node)
    requires Structure(db) && f.File? && Holds(hash, db, id, p, f)
    ensures UpToDate(hash, Apply(db, Sweep), p, f)
  {
    SweepKeepsRow(db, id);
    assert Denotes(Apply(db, Sweep), id, p);
  }

  /** After a full pass that sweeps, every file it read to the end is recorded as it was read. */
  lemma FullPassIsUpToDate(db: Db, run: Run, v: Visit)
    requires Structure(db) && run.Valid() && run.Sweeps() && !run.cfg.modifiedOnly
    requires !ScanAll(db, run.cfg, map[], run.Reached()).threw
    requires v in run.Reached() && v.node.accessible && v.node.File? && v.node.io.ReadsToEnd?
    ensures UpToDate(run.cfg.hash, AfterRun(db, run), v.FullPath(), v.node)
  {
    var scan := ScanAll(db, run.cfg, map[], run.Reached());
    ListingOfRun(run);
    ScanMarks(db, run.cfg, map[], run.Reached(), v.FullPath());
    var id := ScanRecords(db, run.cfg, map[], run.Reached(), v);
    ExecConcat(db, scan.stmts, [Sweep]);
    ExecFew(Exec(db, scan.stmts), Sweep, Sweep, Sweep);
    SweepKeepsRecords(run.cfg.hash, Exec(db, scan.stmts), id, v.FullPath(), v.node);
  }

  /**
   * The same for a `modified_only` pass after `modified_only` passes that may have been cut off
   * anywhere, although it reads only the files whose time has changed.
   */
  lemma FastPassIsUpToDate(hash: Hasher, history: seq<Run>, fast: Run, v: Visit)
    requires HistoryAllowed(OnlyModified, hash, history + [fast]) && FaithfulTimes(Log(history + [fast]))
    requires fast.Sweeps() && forall u :: u in fast.Visits() ==> ReadableNow(u)
    requires forall u :: u in fast.Reached() ==> !Orphan(fast.Reached(), u)
    requires v in fast.Reached() && v.node.accessible && v.node.File?
    ensures UpToDate(hash, AfterRun(AfterHistory(history), fast), v.FullPath(), v.node)
  {
    var db := AfterHistory(history);
    var full := fast.(cfg := FullConfig(fast.cfg));
    assert v in fast.Visits();
    HistoryAllowedBefore(OnlyModified, hash, history, fast);
    HistorySound(OnlyModified, hash, history);
    FastEqualsFull(hash, history, fast);
    assert full.Reached() == fast.Reached();
    ThrowsExactly(db, full);
    FullPassIsUpToDate(db, full, v);
  }
}
