/**
 * The fast pass refines the full one: after any history of `modified_only` passes, a
 * `modified_only` pass and a full pass over the same tree end with the same two tables.
 */
module Incremental {
  import opened Common
  import opened Tree
  import opened Store
  import opened Pass
  import opened Integrity

  /** The two entries are the same state of the path. */
  predicate SameState(a: Node, b: Node) {
    a.File? == b.File? && (a.File? ==> a.ver == b.ver)
  }

  predicate SamePath(v: Visit, w: Visit) {
    v.FullPath() == w.FullPath()
  }

  predicate SameTime(v: Visit, w: Visit) {
    v.node.ver.mtime == w.node.ver.mtime
  }

  /**
   * File times tell versions apart: a path seen twice with the same time is in the same state,
   * and had that time whenever it was seen in between.
   */
  ghost predicate FaithfulTimes(log: seq<seq<Visit>>) {
    && (forall t: nat, u: nat, v, w :: SeenAt(log, t, v) && SeenAt(log, u, w) && SamePath(v, w) && SameTime(v, w) ==> SameState(v.node, w.node))
    && (forall t: nat, u: nat, s: nat, v, w, x :: t < u < s && SeenAt(log, t, v) && SeenAt(log, u, w) && SeenAt(log, s, x) && SamePath(v, w) && SamePath(w, x) && SameTime(v, x) ==> SameTime(v, w))
  }

  /** The pass reads every accessible file to its end, and no time is zero. */
  ghost predicate ReadableNow(v: Visit) {
    v.node.accessible ==> v.node.ver.mtime != 0 && (v.node.File? ==> v.node.io.ReadsToEnd?)
  }

  function FullConfig(cfg: Config): Config {
    cfg.(modifiedOnly := false)
  }

  // ---------------------------------------------------------------- one entry

  /** A path that has left a time does not show that time again. */
  lemma NotAbandoned(log: seq<seq<Visit>>, v: Visit, t: nat, w: Visit)
    requires FaithfulTimes(log) && log != [] && SeenAt(log, |log| - 1, v) && DistinctPaths(log[|log| - 1])
    requires SeenAt(log, t, w) && SamePath(w, v) && SameTime(w, v)
    ensures !LeftSince(log, t, w.FullPath(), w.node.ver.mtime)
  {
    forall u: nat, x: Visit | t < u && SeenAt(log, u, x) && SamePath(w, x)
      ensures SameTime(w, x)
    {
      if u == |log| - 1 {
        OneVisitPerPath(log[u], x, v);
      }
    }
    assert forall x :: SamePath(w, x) <==> x.FullPath() == w.FullPath();
  }

  /** A row whose stored time is the current one already records the file as it is now. */
  lemma StoredTimeMeansRecorded(ctx: Ctx, db: Db, cfg: Config, v: Visit, id: nat)
    requires Sound(ctx, db) && ctx.regime == OnlyModified && VisitAllowed(ctx, cfg, v)
    requires FaithfulTimes(ctx.log) && v.node.accessible && ReadableNow(v)
    requires Denotes(db, id, v.FullPath()) && ReadTime(db.entries[id]) == v.node.ver.mtime
    ensures v.node.File? && Records(ctx.hash, db, id, v.node)
  {
    assert SeenAt(ctx.log, |ctx.log| - 1, v);
    if db.entries[id].digest.None? {
      assert Abandoned(ctx, db, id);
      StillThere(ctx, db, cfg, v, id);
    } else {
      assert Witnessed(ctx, db, id);
      hide Sound; hide Records; hide Structure;
      var t: nat, w: Visit :| WitnessedBy(ctx, db, id, t, w);
      SameRowSamePath(ctx, db, id, w, v);
      RecordedTime(ctx.hash, db, id, w);
      assert SamePath(w, v) && SameTime(w, v);
      assert SameState(w.node, v.node);
      RecordsSameState(ctx.hash, db, id, w.node, v.node);
    }
  }

  lemma SameRowSamePath(ctx: Ctx, db: Db, id: nat, w: Visit, v: Visit)
    requires Sound(ctx, db) && Denotes(db, id, w.FullPath()) && Denotes(db, id, v.FullPath())
    ensures SamePath(w, v)
  {
    DenotesOnePath(db, id, w.FullPath(), v.FullPath());
  }

  lemma RecordedTime(hash: Hasher, db: Db, id: nat, w: Visit)
    requires w.node.File? && id in db.entries && Records(hash, db, id, w.node)
    ensures ReadTime(db.entries[id]) == w.node.ver.mtime
  {
  }

  lemma RecordsSameState(hash: Hasher, db: Db, id: nat, f: Node, g: Node)
    requires f.File? && id in db.entries && Records(hash, db, id, f) && SameState(f, g)
    ensures g.File? && Records(hash, db, id, g)
  {
  }

  /** The time a row was abandoned with is not the one its file shows now. */
  lemma StillThere(ctx: Ctx, db: Db, cfg: Config, v: Visit, id: nat)
    requires Sound(ctx, db) && VisitAllowed(ctx, cfg, v) && FaithfulTimes(ctx.log) && v.node.accessible
    requires Denotes(db, id, v.FullPath()) && ReadTime(db.entries[id]) == v.node.ver.mtime
    ensures !Abandoned(ctx, db, id)
  {
    hide FaithfulTimes; hide LeftSince;
    if Abandoned(ctx, db, id) {
      var t: nat, w: Visit :| AbandonedBy(ctx, db, id, t, w);
      SameRowSamePath(ctx, db, id, w, v);
      hide Sound;
      assert SeenAt(ctx.log, |ctx.log| - 1, v) && SamePath(w, v) && SameTime(w, v);
      NotAbandoned(ctx.log, v, t, w);
    }
  }

  lemma BlocksDetermined(hash: Hasher, a: Db, b: Db, id: nat, chunks: seq<Bytes>)
    requires BlocksAre(hash, a, id, chunks, |chunks|) && BlocksAre(hash, b, id, chunks, |chunks|)
    requires forall k: (nat, nat) :: k.0 != id ==> (k in a.blocks <==> k in b.blocks) && (k in a.blocks ==> a.blocks[k] == b.blocks[k])
    ensures a.blocks == b.blocks
  {
    forall k: (nat, nat)
      ensures k in a.blocks <==> k in b.blocks
      ensures k in a.blocks && k in b.blocks ==> a.blocks[k] == b.blocks[k]
    {
      if k.0 == id {
        var no := k.1;
        assert k == (id, no);
      }
    }
    assert a.blocks.Keys == b.blocks.Keys;
  }

  /** What a full pass leaves for a file it reads to the end, from a row already there. */
  lemma FullPassOnRow(db: Db, cfg: Config, parent: nat, f: Node)
    requires FreshIds(cfg.rowids) && BlocksOwned(db) && !cfg.modifiedOnly
    requires f.File? && f.io.ReadsToEnd? && Find(db, parent, f.name).Some?
    ensures var id := Find(db, parent, f.name).value;
            var to := Exec(db, NodeStmts(db, cfg, parent, f));
            && to.entries == db.entries[id := UpdatedRow(db.entries[id], NodeCols(parent, f)).(
                 mtime := Some(f.ver.mtime), digest := Some(cfg.hash.file(PadAll(f.ver.chunks))))]
            && (f.ver.chunks != [] ==> BlocksAre(cfg.hash, to, id, f.ver.chunks, |f.ver.chunks|))
            && (f.ver.chunks == [] ==> to.blocks == db.blocks)
            && (forall k: (nat, nat) :: k.0 != id ==> (k in to.blocks <==> k in db.blocks) && (k in db.blocks ==> to.blocks[k] == db.blocks[k]))
  {
    NodeEffect(db, cfg, parent, f);
    var to := Exec(db, NodeStmts(db, cfg, parent, f));
    if f.ver.chunks == [] {
      assert to.blocks.Keys == db.blocks.Keys;
    }
  }

  /** What a `modified_only` pass leaves when the stored time is the current one. */
  lemma TouchOnRow(db: Db, cfg: Config, parent: nat, n: Node)
    requires FreshIds(cfg.rowids) && BlocksOwned(db) && cfg.modifiedOnly
    requires var f := Find(db, parent, n.name); f.Some? && ReadTime(db.entries[f.value]) == n.ver.mtime
    ensures var id := Find(db, parent, n.name).value;
            Exec(db, NodeStmts(db, cfg, parent, n)) == Put(db, id, db.entries[id].(alive := false))
  {
    NodeEffect(db, cfg, parent, n);
    var to := Exec(db, NodeStmts(db, cfg, parent, n));
    assert to.blocks.Keys == db.blocks.Keys;
  }

  /**
   * When the stored time is the current one, touching the row is as good as reading the file
   * again if and only if the row already records the file.
   */
  lemma TouchSufficesExactly(db: Db, cfg: Config, parent: nat, f: Node)
    requires FreshIds(cfg.rowids) && BlocksOwned(db) && cfg.modifiedOnly
    requires f.File? && f.io.ReadsToEnd? && Find(db, parent, f.name).Some?
    requires ReadTime(db.entries[Find(db, parent, f.name).value]) == f.ver.mtime != 0
    ensures Exec(db, NodeStmts(db, cfg, parent, f)) == Exec(db, NodeStmts(db, FullConfig(cfg), parent, f)) <==>
              Records(cfg.hash, db, Find(db, parent, f.name).value, f)
  {
    var id := Find(db, parent, f.name).value;
    var touched := Exec(db, NodeStmts(db, cfg, parent, f));
    var full := Exec(db, NodeStmts(db, FullConfig(cfg), parent, f));
    TouchOnRow(db, cfg, parent, f);
    FullPassOnRow(db, FullConfig(cfg), parent, f);
    assert touched.entries[id] == db.entries[id].(alive := false);
    if Records(cfg.hash, db, id, f) {
      if f.ver.chunks != [] {
        BlocksDetermined(cfg.hash, db, full, id, f.ver.chunks);
      }
      assert full.entries == touched.entries;
    }
    if touched == full {
      assert full.entries[id] == touched.entries[id];
    }
  }

  lemma ChildDenotes(db: Db, parent: nat, v: Visit)
    requires 0 !in db.entries && Denotes(db, parent, v.dir) && Find(db, parent, v.node.name).Some?
    ensures Denotes(db, Find(db, parent, v.node.name).value, v.FullPath())
  {
    assert v.FullPath()[..|v.dir|] == v.dir;
  }

  lemma NodeAgrees(ctx: Ctx, db: Db, cfg: Config, parent: nat, v: Visit)
    requires Sound(ctx, db) && ctx.regime == OnlyModified && VisitAllowed(ctx, cfg, v)
    requires FaithfulTimes(ctx.log) && v.node.accessible && ReadableNow(v)
    requires Denotes(db, parent, v.dir) && Marked(db, parent)
    ensures Exec(db, NodeStmts(db, cfg, parent, v.node)) == Exec(db, NodeStmts(db, FullConfig(cfg), parent, v.node))
  {
    var f := Find(db, parent, v.node.name);
    if f.Some? && ReadTime(db.entries[f.value]) == v.node.ver.mtime {
      hide Sound; hide FaithfulTimes; hide Records; hide NodeStmts; hide Exec;
      SoundStructure(ctx, db);
      ChildDenotes(db, parent, v);
      StoredTimeMeansRecorded(ctx, db, cfg, v, f.value);
      TouchSufficesExactly(db, cfg, parent, v.node);
    } else {
      assert NodeStmts(db, cfg, parent, v.node) == NodeStmts(db, FullConfig(cfg), parent, v.node);
    }
  }

  /** Both kinds of pass leave the same root row. */
  lemma ParentAgrees(db: Db, cfg: Config, cache: Cache, v: Visit)
    requires Structure(db) && FreshIds(cfg.rowids)
    ensures Exec(db, ParentStmts(db, cfg, cache, v)) == Exec(db, ParentStmts(db, FullConfig(cfg), cache, v))
  {
    var c := RootCols(v.dir);
    EntryEffect(db, cfg, c, 0);
    EntryEffect(db, FullConfig(cfg), c, 0);
    var f := Find(db, c.parent, c.name);
    if f.Some? {
      assert db.entries[f.value].parent == 0;
      assert EntryRow(db, cfg, c, 0) == EntryRow(db, FullConfig(cfg), c, 0);
    }
  }

  lemma MidAgrees(ctx: Ctx, db: Db, cfg: Config, cache: Cache, v: Visit)
    requires Sound(ctx, db) && ctx.regime == OnlyModified && VisitAllowed(ctx, cfg, v)
    requires FaithfulTimes(ctx.log) && ReadableNow(v) && CacheOk(db, cache) && Processed(cache, v)
    ensures var mid, parent := Exec(db, ParentStmts(db, cfg, cache, v)), ParentId(db, cfg, cache, v);
            Exec(mid, NodeStmts(mid, cfg, parent, v.node)) == Exec(mid, NodeStmts(mid, FullConfig(cfg), parent, v.node))
  {
    ParentGrows(db, cfg, cache, v);
    ParentSound(ctx, db, cfg, cache, v);
    SoundAtEnd(ctx, db, ParentStmts(db, cfg, cache, v));
    NodeAgrees(ctx, Exec(db, ParentStmts(db, cfg, cache, v)), cfg, ParentId(db, cfg, cache, v), v);
  }

  lemma SoundStructure(ctx: Ctx, db: Db)
    requires Sound(ctx, db)
    ensures Structure(db)
  {
  }

  lemma IdsAgree(db: Db, cfg: Config, cache: Cache, v: Visit)
    ensures ParentId(db, cfg, cache, v) == ParentId(db, FullConfig(cfg), cache, v)
    ensures forall to, c :: EntryId(to, cfg, c) == EntryId(to, FullConfig(cfg), c)
  {
  }

  lemma VisitAgrees(ctx: Ctx, db: Db, cfg: Config, cache: Cache, v: Visit)
    requires Sound(ctx, db) && ctx.regime == OnlyModified && VisitAllowed(ctx, cfg, v)
    requires FaithfulTimes(ctx.log) && ReadableNow(v) && CacheOk(db, cache)
    ensures var fast, full := Manipulate(db, cfg, cache, v), Manipulate(db, FullConfig(cfg), cache, v);
            && Exec(db, fast.stmts) == Exec(db, full.stmts)
            && fast.cache == full.cache && fast.threw == full.threw
  {
    hide Sound; hide FaithfulTimes; hide CacheOk; hide ParentStmts; hide ParentId; hide NodeStmts; hide Exec; hide EntryId;
    IdsAgree(db, cfg, cache, v);
    if Processed(cache, v) {
      assert Structure(db) by { SoundStructure(ctx, db); }
      ParentAgrees(db, cfg, cache, v);
      MidAgrees(ctx, db, cfg, cache, v);
      ManipulateSplit(db, cfg, cache, v);
      ManipulateSplit(db, FullConfig(cfg), cache, v);
    }
  }

  lemma {:induction false} ScanAgrees(ctx: Ctx, db: Db, cfg: Config, cache: Cache, vs: seq<Visit>)
    requires Sound(ctx, db) && ctx.regime == OnlyModified && FaithfulTimes(ctx.log) && CacheOk(db, cache)
    requires forall v :: v in vs ==> VisitAllowed(ctx, cfg, v) && TimeAllowed(ctx, cfg, v) && ReadableNow(v)
    ensures var fast, full := ScanAll(db, cfg, cache, vs), ScanAll(db, FullConfig(cfg), cache, vs);
            && Exec(db, fast.stmts) == Exec(db, full.stmts) && fast.threw == full.threw
    decreases |vs|
  {
    if vs != [] {
      var fast, full := Manipulate(db, cfg, cache, vs[0]), Manipulate(db, FullConfig(cfg), cache, vs[0]);
      var mid := Exec(db, fast.stmts);
      VisitAgrees(ctx, db, cfg, cache, vs[0]);
      if !fast.threw {
        ManipulateSound(ctx, db, cfg, cache, vs[0]);
        SoundAtEnd(ctx, db, fast.stmts);
        ManipulateCache(db, cfg, cache, vs[0]);
        ScanAgrees(ctx, mid, cfg, fast.cache, vs[1..]);
        ExecConcat(db, fast.stmts, ScanAll(mid, cfg, fast.cache, vs[1..]).stmts);
        ExecConcat(db, full.stmts, ScanAll(mid, FullConfig(cfg), fast.cache, vs[1..]).stmts);
      }
    }
  }

  // ---------------------------------------------------------------- the theorem

  /**
   * After any history of `modified_only` passes - complete, stopped, throwing or crashed, with or
   * without read errors, but with no sweep half done that cost a recorded file its blocks - a fast
   * pass and a full pass end with the same rows and the same blocks.
   */
  lemma FastEqualsFull(hash: Hasher, history: seq<Run>, fast: Run)
    requires HistoryAllowed(OnlyModified, hash, history + [fast])
    requires FaithfulTimes(Log(history + [fast]))
    requires fast.Sweeps() && forall v :: v in fast.Visits() ==> ReadableNow(v)
    ensures AfterRun(AfterHistory(history), fast) == AfterRun(AfterHistory(history), fast.(cfg := FullConfig(fast.cfg)))
  {
    hide HistoryAllowed; hide RunAllowed; hide SweepAllowed; hide LastAllowed; hide NoneTurnedZero; hide FaithfulTimes; hide Sound;
    hide VisitAllowed; hide TimeAllowed; hide ReadableNow; hide AfterHistory; hide ScanAll; hide Preorder;
    var db := AfterHistory(history);
    var ctx := Ctx(OnlyModified, hash, Log(history + [fast]));
    var full := fast.(cfg := FullConfig(fast.cfg));
    HistoryAllowedBefore(OnlyModified, hash, history, fast);
    HistorySound(OnlyModified, hash, history);
    LogGrows(Ctx(OnlyModified, hash, Log(history)), fast.Visits(), db);
    LastIsAllowed(OnlyModified, hash, history, fast);
    RunVisitsAllowed(ctx, fast);
    assert forall v :: v in fast.Reached() ==> v in fast.Visits();
    ScanAgrees(ctx, db, fast.cfg, map[], fast.Reached());
    assert full.Reached() == fast.Reached();
    ExecConcat(db, ScanAll(db, fast.cfg, map[], fast.Reached()).stmts, [Sweep]);
    ExecConcat(db, ScanAll(db, full.cfg, map[], fast.Reached()).stmts, [Sweep]);
  }
}
