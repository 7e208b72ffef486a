/**
 * What holds at every statement boundary of every history of passes.
 *
 * One inductive invariant, `Sound`, in three strengths:
 *   AnyHistory    - integrity of the two tables;
 *   SafeTimes     - and every stored digest describes a version of its file that a pass has seen
 *                   (as long as no `modified_only` pass meets a file at time zero that an
 *                   earlier pass met at another time, and no sweep that is committed half done
 *                   takes the blocks of a row with a digest);
 *   OnlyModified  - and a row that lost its digest has since been seen with another time
 *                   (histories of `modified_only` passes).
 */
module Integrity {
  import opened Common
  import opened Tree
  import opened Store
  import opened Pass

  datatype Regime = AnyHistory | SafeTimes | OnlyModified

  /** `log` lists what the passes so far could see, the pass under way last. */
  datatype Ctx = Ctx(regime: Regime, hash: Hasher, log: seq<seq<Visit>>)

  ghost predicate SeenAt(log: seq<seq<Visit>>, t: nat, v: Visit) {
    t < |log| && v in log[t] && v.node.accessible
  }

  /** The row and the block rows of `id` describe this version of the file. */
  ghost predicate Records(hash: Hasher, db: Db, id: nat, f: Node)
    requires f.File? && id in db.entries
  {
    var row := db.entries[id];
    && row.digest == Some(hash.file(PadAll(f.ver.chunks)))
    && row.mtime == Some(f.ver.mtime)
    && row.size == NonZero(f.ver.size)
    && !row.isDir && row.blockSize == Some(BLOCK_SIZE)
    && (f.ver.chunks != [] ==> BlocksAre(hash, db, id, f.ver.chunks, |f.ver.chunks|))
  }

  ghost predicate WitnessedBy(ctx: Ctx, db: Db, id: nat, t: nat, v: Visit)
    requires id in db.entries
  {
    SeenAt(ctx.log, t, v) && v.node.File? && Denotes(db, id, v.FullPath()) && Records(ctx.hash, db, id, v.node)
  }

  ghost predicate Witnessed(ctx: Ctx, db: Db, id: nat)
    requires id in db.entries
  {
    exists t, v :: WitnessedBy(ctx, db, id, t, v)
  }

  /** Crash consistency: a stored digest is never that of something else. */
  ghost predicate Consistent(ctx: Ctx, db: Db) {
    forall id :: id in db.entries && db.entries[id].digest.Some? ==> Witnessed(ctx, db, id)
  }

  /** Since pass `t` the path has been seen with a time other than `m`. */
  ghost predicate LeftSince(log: seq<seq<Visit>>, t: nat, p: Path, m: nat) {
    exists u, w :: t < u && SeenAt(log, u, w) && w.FullPath() == p && w.node.ver.mtime != m
  }

  ghost predicate AbandonedBy(ctx: Ctx, db: Db, id: nat, t: nat, v: Visit)
    requires id in db.entries
  {
    && SeenAt(ctx.log, t, v) && v.node.File? && Denotes(db, id, v.FullPath())
    && db.entries[id].mtime == Some(v.node.ver.mtime)
    && LeftSince(ctx.log, t, v.FullPath(), v.node.ver.mtime)
  }

  ghost predicate Abandoned(ctx: Ctx, db: Db, id: nat)
    requires id in db.entries
  {
    exists t, v :: AbandonedBy(ctx, db, id, t, v)
  }

  ghost predicate NulledOnceLeft(ctx: Ctx, db: Db) {
    forall id :: id in db.entries && db.entries[id].digest.None? && db.entries[id].mtime.Some? ==> Abandoned(ctx, db, id)
  }

  ghost predicate TimeSeenBy(ctx: Ctx, db: Db, id: nat, t: nat, v: Visit)
    requires id in db.entries
  {
    && SeenAt(ctx.log, t, v) && v.node.File? && Denotes(db, id, v.FullPath())
    && db.entries[id].mtime == Some(v.node.ver.mtime)
  }

  ghost predicate TimeSeen(ctx: Ctx, db: Db, id: nat)
    requires id in db.entries
  {
    exists t, v :: TimeSeenBy(ctx, db, id, t, v)
  }

  /** A stored time is one at which some pass has seen the file. */
  ghost predicate TimesSeen(ctx: Ctx, db: Db) {
    forall id :: id in db.entries && db.entries[id].mtime.Some? ==> TimeSeen(ctx, db, id)
  }

  ghost predicate Sound(ctx: Ctx, db: Db) {
    && Structure(db)
    && (ctx.regime != AnyHistory ==> TimesSeen(ctx, db) && Consistent(ctx, db))
    && (ctx.regime == OnlyModified ==> NulledOnceLeft(ctx, db))
  }

  ghost predicate SoundAlong(ctx: Ctx, db: Db, ss: seq<Stmt>) {
    forall k :: 0 <= k <= |ss| ==> Sound(ctx, Exec(db, ss[..k]))
  }

  lemma SoundAlongConcat(ctx: Ctx, db: Db, a: seq<Stmt>, b: seq<Stmt>)
    requires SoundAlong(ctx, db, a) && SoundAlong(ctx, Exec(db, a), b)
    ensures SoundAlong(ctx, db, a + b)
  {
    forall k | 0 <= k <= |a + b|
      ensures Sound(ctx, Exec(db, (a + b)[..k]))
    {
      SplitBoundary(db, a, b, k);
    }
  }

  lemma NothingSound(ctx: Ctx, db: Db)
    requires Sound(ctx, db)
    ensures SoundAlong(ctx, db, [])
  {
    var none: seq<Stmt> := [];
    forall k | 0 <= k <= |none|
      ensures Sound(ctx, Exec(db, none[..k]))
    {
      assert none[..k] == [];
    }
  }

  lemma SoundAtEnd(ctx: Ctx, db: Db, ss: seq<Stmt>)
    requires SoundAlong(ctx, db, ss)
    ensures Sound(ctx, Exec(db, ss))
  {
    assert ss[..|ss|] == ss;
  }

  // ---------------------------------------------------------------- single steps

  /** Row `id` means the same in `to` as in `from`. */
  ghost predicate RowKept(from: Db, to: Db, id: nat) {
    && id in from.entries && id in to.entries
    && to.entries[id].(alive := true) == from.entries[id].(alive := true)
    && (forall no: nat :: (id, no) in to.blocks <==> (id, no) in from.blocks)
    && (forall no: nat :: (id, no) in to.blocks && (id, no) in from.blocks ==> to.blocks[(id, no)] == from.blocks[(id, no)])
    && (forall p :: Denotes(from, id, p) ==> Denotes(to, id, p))
  }

  lemma WitnessKept(ctx: Ctx, from: Db, to: Db, id: nat)
    requires RowKept(from, to, id)
    ensures Witnessed(ctx, from, id) ==> Witnessed(ctx, to, id)
    ensures Abandoned(ctx, from, id) ==> Abandoned(ctx, to, id)
  {
    if Witnessed(ctx, from, id) {
      var t, v :| WitnessedBy(ctx, from, id, t, v);
      assert WitnessedBy(ctx, to, id, t, v);
    }
    if Abandoned(ctx, from, id) {
      var t, v :| AbandonedBy(ctx, from, id, t, v);
      assert AbandonedBy(ctx, to, id, t, v);
    }
  }

  lemma TimeKept(ctx: Ctx, from: Db, to: Db, id: nat)
    requires id in from.entries && id in to.entries && to.entries[id].mtime == from.entries[id].mtime
    requires forall p :: Denotes(from, id, p) ==> Denotes(to, id, p)
    ensures TimeSeen(ctx, from, id) ==> TimeSeen(ctx, to, id)
  {
    if TimeSeen(ctx, from, id) {
      var t, v :| TimeSeenBy(ctx, from, id, t, v);
      assert TimeSeenBy(ctx, to, id, t, v);
    }
  }

  /** What a rewritten row must satisfy besides `PutAllowed`. */
  ghost predicate RowJustified(ctx: Ctx, db: Db, id: nat, row: Row) {
    var to := Put(db, id, row);
    && (ctx.regime != AnyHistory && row.mtime.Some? && (id !in db.entries || row.mtime != db.entries[id].mtime) ==> TimeSeen(ctx, to, id))
    && RowTruthful(ctx, db, id, row)
  }

  ghost predicate RowTruthful(ctx: Ctx, db: Db, id: nat, row: Row) {
    var to := Put(db, id, row);
    || (id in db.entries && row == db.entries[id].(alive := false))
    || ((ctx.regime != AnyHistory && row.digest.Some? ==> Witnessed(ctx, to, id)) &&
        (ctx.regime == OnlyModified && row.digest.None? && row.mtime.Some? ==> Abandoned(ctx, to, id)))
  }

  lemma PutKeepsTimes(ctx: Ctx, db: Db, id: nat, row: Row)
    requires ctx.regime != AnyHistory && TimesSeen(ctx, db) && PutAllowed(db, id, row) && RowJustified(ctx, db, id, row)
    ensures TimesSeen(ctx, Put(db, id, row))
  {
    hide TimeSeen; hide RowTruthful; hide Denotes;
    var to := Put(db, id, row);
    forall i | i in to.entries && to.entries[i].mtime.Some?
      ensures TimeSeen(ctx, to, i)
    {
      if i in db.entries && to.entries[i].mtime == db.entries[i].mtime {
        forall p | Denotes(db, i, p)
          ensures Denotes(to, i, p)
        {
          DenotesKept(db, to, i, p);
        }
        TimeKept(ctx, db, to, i);
      }
    }
  }

  /** Every row but the one rewritten means what it did. */
  lemma PutKeepsRow(ctx: Ctx, db: Db, id: nat, row: Row, i: nat)
    requires PutAllowed(db, id, row) && i in db.entries && (i != id || row == db.entries[id].(alive := false))
    ensures Witnessed(ctx, db, i) ==> Witnessed(ctx, Put(db, id, row), i)
    ensures Abandoned(ctx, db, i) ==> Abandoned(ctx, Put(db, id, row), i)
  {
    hide Witnessed; hide Abandoned; hide Denotes;
    var to := Put(db, id, row);
    forall p | Denotes(db, i, p)
      ensures Denotes(to, i, p)
    {
      DenotesKept(db, to, i, p);
    }
    WitnessKept(ctx, db, to, i);
  }

  lemma PutSound(ctx: Ctx, db: Db, id: nat, row: Row)
    requires Sound(ctx, db) && PutAllowed(db, id, row) && RowJustified(ctx, db, id, row)
    ensures Sound(ctx, Put(db, id, row))
  {
    hide Witnessed; hide Abandoned; hide Structure; hide PutAllowed; hide TimeSeen;
    PutKeepsStructure(db, id, row);
    if ctx.regime != AnyHistory {
      PutKeepsTimes(ctx, db, id, row);
    }
    hide TimesSeen;
    forall i | i in db.entries && (i != id || row == db.entries[id].(alive := false))
      ensures Witnessed(ctx, db, i) ==> Witnessed(ctx, Put(db, id, row), i)
      ensures Abandoned(ctx, db, i) ==> Abandoned(ctx, Put(db, id, row), i)
    {
      PutKeepsRow(ctx, db, id, row, i);
    }
  }

  lemma SameRowsSameTimes(ctx: Ctx, from: Db, to: Db)
    requires TimesSeen(ctx, from) && to.entries == from.entries
    ensures TimesSeen(ctx, to)
  {
    hide TimeSeen;
    DenotesAgree(from, to);
    forall i | i in to.entries && to.entries[i].mtime.Some?
      ensures TimeSeen(ctx, to, i)
    {
      TimeKept(ctx, from, to, i);
    }
  }

  /** Block rows may be rewritten while the entry's digest is NULL. */
  lemma BlocksSound(ctx: Ctx, from: Db, to: Db, id: nat)
    requires Sound(ctx, from) && id in from.entries && BlocksOnly(from, to, id)
    requires ctx.regime != AnyHistory ==> from.entries[id].digest.None?
    ensures Sound(ctx, to)
  {
    BlocksKeepStructure(from, to, id);
    DenotesAgree(from, to);
    if ctx.regime != AnyHistory {
      SameRowsSameTimes(ctx, from, to);
    }
    hide TimesSeen;
    forall i | i in from.entries
      ensures i != id && Witnessed(ctx, from, i) ==> Witnessed(ctx, to, i)
      ensures Abandoned(ctx, from, i) ==> Abandoned(ctx, to, i)
    {
      if i != id {
        WitnessKept(ctx, from, to, i);
      } else if Abandoned(ctx, from, i) {
        var t, v :| AbandonedBy(ctx, from, i, t, v);
        assert AbandonedBy(ctx, to, i, t, v);
      }
    }
  }

  /** A row that survives the sweep keeps its columns, its block rows and its path. */
  lemma SweepKeepsRow(db: Db, id: nat)
    requires Structure(db) && Marked(db, id)
    ensures RowKept(db, Apply(db, Sweep), id)
    ensures Apply(db, Sweep).entries[id] == db.entries[id].(alive := true)
  {
    hide Structure; hide Denotes;
    var to := Apply(db, Sweep);
    forall p | Denotes(db, id, p)
      ensures Denotes(to, id, p)
    {
      SweepKeepsMarked(db, id, p);
    }
  }

  lemma SweepKeepsTimes(ctx: Ctx, db: Db)
    requires Structure(db) && TimesSeen(ctx, db)
    ensures TimesSeen(ctx, Apply(db, Sweep))
  {
    hide TimeSeen; hide Structure; hide Denotes; hide Apply;
    var to := Apply(db, Sweep);
    SweepKeepsStructure(db);
    forall i | i in to.entries && to.entries[i].mtime.Some?
      ensures TimeSeen(ctx, to, i)
    {
      SweepKeepsRow(db, i);
      TimeKept(ctx, db, to, i);
    }
  }

  lemma SweepSound(ctx: Ctx, db: Db)
    requires Sound(ctx, db)
    ensures Sound(ctx, Apply(db, Sweep))
  {
    hide Structure; hide Apply; hide RowKept; hide Witnessed; hide Abandoned; hide TimesSeen;
    var to := Apply(db, Sweep);
    SweepKeepsStructure(db);
    if ctx.regime != AnyHistory {
      SweepKeepsTimes(ctx, db);
    }
    forall i | i in to.entries
      ensures Marked(db, i) && to.entries[i] == db.entries[i].(alive := true)
      ensures Witnessed(ctx, db, i) ==> Witnessed(ctx, to, i)
      ensures Abandoned(ctx, db, i) ==> Abandoned(ctx, to, i)
    {
      SweepKeepsRow(db, i);
      WitnessKept(ctx, db, to, i);
    }
  }

  // ---------------------------------------------------------------- a sweep that fails

  /** No unmarked row with a digest has block rows. */
  ghost predicate Spares(db: Db) {
    forall k :: k in db.blocks && k.0 in db.entries && db.entries[k.0].alive ==> db.entries[k.0].digest.None?
  }

  lemma SparedRow(db: Db, id: nat)
    requires id in db.entries && (Marked(db, id) || (Spares(db) && db.entries[id].digest.Some?))
    ensures RowKept(db, Apply(db, SweepBlocks), id)
  {
    DenotesAgree(db, Apply(db, SweepBlocks));
    forall no: nat
      ensures (id, no) in Apply(db, SweepBlocks).blocks <==> (id, no) in db.blocks
    {
      var k := (id, no);
      assert k in db.blocks ==> k.0 == id;
    }
  }

  lemma SameRowsAbandoned(ctx: Ctx, from: Db, to: Db, id: nat)
    requires to.entries == from.entries && id in from.entries
    ensures Abandoned(ctx, from, id) ==> Abandoned(ctx, to, id)
  {
    DenotesAgree(from, to);
    if Abandoned(ctx, from, id) {
      var t, v :| AbandonedBy(ctx, from, id, t, v);
      assert AbandonedBy(ctx, to, id, t, v);
    }
  }

  /** The first DELETE of the sweep, committed alone, keeps the invariant if it takes no blocks of a row with a digest. */
  lemma SweepBlocksSound(ctx: Ctx, db: Db)
    requires Sound(ctx, db) && (ctx.regime != AnyHistory ==> Spares(db))
    ensures Sound(ctx, Apply(db, SweepBlocks))
  {
    hide Structure; hide RowKept; hide Witnessed; hide Abandoned; hide TimesSeen; hide Spares; hide Denotes;
    var to := Apply(db, SweepBlocks);
    SweepBlocksKeepsStructure(db);
    if ctx.regime != AnyHistory {
      SameRowsSameTimes(ctx, db, to);
      forall i | i in to.entries
        ensures db.entries[i].digest.Some? ==> Witnessed(ctx, to, i)
        ensures Abandoned(ctx, db, i) ==> Abandoned(ctx, to, i)
      {
        if db.entries[i].digest.Some? {
          SparedRow(db, i);
          WitnessKept(ctx, db, to, i);
        }
        SameRowsAbandoned(ctx, db, to, i);
      }
    }
  }

  lemma SweepRowsKeepsRow(db: Db, id: nat)
    requires Structure(db) && Marked(db, id)
    ensures RowKept(db, Apply(db, SweepRows), id)
    ensures Apply(db, SweepRows).entries[id] == db.entries[id]
  {
    hide Structure; hide Denotes;
    SweepKeepsRow(db, id);
    SweptRowsAreSweep(db);
    forall p | Denotes(db, id, p)
      ensures Denotes(Apply(db, SweepRows), id, p)
    {
      DenotesKept(Apply(db, Sweep), Apply(db, SweepRows), id, p);
    }
  }

  lemma SweptRow(db: Db, id: nat)
    ensures id in Apply(db, SweepRows).entries <==> Marked(db, id)
  {
  }

  /** Both DELETEs, committed without the UPDATE, take no blocks of a row they leave. */
  lemma SweepRowsSound(ctx: Ctx, db: Db)
    requires Sound(ctx, db)
    ensures Sound(ctx, Apply(db, SweepRows))
  {
    hide Structure; hide Apply; hide RowKept; hide Witnessed; hide Abandoned; hide TimeSeen; hide Denotes;
    var to := Apply(db, SweepRows);
    SweepRowsKeepsStructure(db);
    forall i | i in to.entries
      ensures Marked(db, i) && to.entries[i] == db.entries[i]
      ensures Witnessed(ctx, db, i) ==> Witnessed(ctx, to, i)
      ensures Abandoned(ctx, db, i) ==> Abandoned(ctx, to, i)
      ensures TimeSeen(ctx, db, i) ==> TimeSeen(ctx, to, i)
    {
      SweptRow(db, i);
      SweepRowsKeepsRow(db, i);
      WitnessKept(ctx, db, to, i);
      KeptIsDenoted(db, to, i);
      TimeKept(ctx, db, to, i);
    }
  }

  lemma KeptIsDenoted(from: Db, to: Db, id: nat)
    requires RowKept(from, to, id)
    ensures forall p :: Denotes(from, id, p) ==> Denotes(to, id, p)
  {
  }

  /** Starting another pass only adds to what has been seen. */
  lemma LogGrows(ctx: Ctx, vs: seq<Visit>, db: Db)
    requires Sound(ctx, db)
    ensures Sound(ctx.(log := ctx.log + [vs]), db)
  {
    var more := ctx.(log := ctx.log + [vs]);
    forall id | id in db.entries
      ensures TimeSeen(ctx, db, id) ==> TimeSeen(more, db, id)
      ensures Witnessed(ctx, db, id) ==> Witnessed(more, db, id)
      ensures Abandoned(ctx, db, id) ==> Abandoned(more, db, id)
    {
      if Witnessed(ctx, db, id) {
        var t, v :| WitnessedBy(ctx, db, id, t, v);
        assert WitnessedBy(more, db, id, t, v);
      }
      if TimeSeen(ctx, db, id) {
        var t, v :| TimeSeenBy(ctx, db, id, t, v);
        assert TimeSeenBy(more, db, id, t, v);
      }
      if Abandoned(ctx, db, id) {
        var t, v :| AbandonedBy(ctx, db, id, t, v);
        var u, w :| t < u && SeenAt(ctx.log, u, w) && w.FullPath() == v.FullPath() && w.node.ver.mtime != v.node.ver.mtime;
        assert SeenAt(more.log, u, w);
        assert AbandonedBy(more, db, id, t, v);
      }
    }
  }

  // ---------------------------------------------------------------- one visit

  /** Every cached path maps to the marked row whose parent chain spells it. */
  ghost predicate CacheOk(db: Db, cache: Cache) {
    forall p :: p in cache ==> Denotes(db, cache[p], p) && Marked(db, cache[p])
  }

  ghost predicate VisitAllowed(ctx: Ctx, cfg: Config, v: Visit) {
    && cfg.hash == ctx.hash && FreshIds(cfg.rowids)
    && ctx.log != [] && v in ctx.log[|ctx.log| - 1] && DistinctPaths(ctx.log[|ctx.log| - 1])
    && Placed(v)
    && (ctx.regime == OnlyModified ==> cfg.modifiedOnly)
  }

  lemma EntryPut(db: Db, cfg: Config, c: Cols, mtime: nat, dir: Path)
    requires Structure(db) && FreshIds(cfg.rowids)
    requires if dir == [] then c.parent == 0 && c.isDir && c.fileSize == 0 && c.blockSize == 0
             else Denotes(db, c.parent, dir) && Marked(db, c.parent)
    ensures var id, row := EntryId(db, cfg, c), EntryRow(db, cfg, c, mtime);
            && PutAllowed(db, id, row)
            && Denotes(Put(db, id, row), id, dir + [c.name])
            && (id in db.entries ==> Denotes(db, id, dir + [c.name]))
  {
    var id, row := EntryId(db, cfg, c), EntryRow(db, cfg, c, mtime);
    var to := Put(db, id, row);
    assert (dir + [c.name])[..|dir|] == dir;
    assert c.parent == 0 <==> dir == [];
    if Find(db, c.parent, c.name).None? {
      assert id !in db.entries.Keys;
      if dir != [] {
        DenotesKept(db, to, c.parent, dir);
      }
    } else {
      assert Denotes(db, id, dir + [c.name]);
      DenotesKept(db, to, id, dir + [c.name]);
    }
  }

  lemma OneVisitPerPath(vs: seq<Visit>, v: Visit, w: Visit)
    requires DistinctPaths(vs) && v in vs && w in vs && v.FullPath() == w.FullPath()
    ensures v == w
  {
    var i :| 0 <= i < |vs| && vs[i] == v;
    var j :| 0 <= j < |vs| && vs[j] == w;
    assert !(i < j) && !(j < i);
  }

  /** A row whose digest a `modified_only` pass sets to NULL has left the time stored in it. */
  lemma NulledIsAbandoned(ctx: Ctx, db: Db, cfg: Config, v: Visit, id: nat, row: Row)
    requires Sound(ctx, db) && ctx.regime == OnlyModified && VisitAllowed(ctx, cfg, v) && v.node.accessible
    requires Denotes(db, id, v.FullPath()) && row.mtime == db.entries[id].mtime && PutAllowed(db, id, row)
    requires row.mtime.Some? && row.mtime.value != v.node.ver.mtime
    ensures Abandoned(ctx, Put(db, id, row), id)
  {
    var to := Put(db, id, row);
    var last := |ctx.log| - 1;
    var t: nat, w: Visit;
    if db.entries[id].digest.Some? {
      t, w :| WitnessedBy(ctx, db, id, t, w);
      DenotesOnePath(db, id, w.FullPath(), v.FullPath());
      if t == last {
        OneVisitPerPath(ctx.log[last], v, w);
      }
      assert SeenAt(ctx.log, last, v);
    } else {
      t, w :| AbandonedBy(ctx, db, id, t, w);
    }
    DenotesKept(db, to, id, w.FullPath());
    assert AbandonedBy(ctx, to, id, t, w);
  }

  lemma RootEntrySound(ctx: Ctx, db: Db, cfg: Config, dir: Path)
    requires Sound(ctx, db) && FreshIds(cfg.rowids)
    ensures SoundAlong(ctx, db, EntryStmts(db, cfg, RootCols(dir), 0))
  {
    var c := RootCols(dir);
    EntryEffect(db, cfg, c, 0);
    EntryPut(db, cfg, c, 0, []);
    PutSound(ctx, db, EntryId(db, cfg, c), EntryRow(db, cfg, c, 0));
  }

  lemma NodeEntrySound(ctx: Ctx, db: Db, cfg: Config, parent: nat, v: Visit)
    requires Sound(ctx, db) && VisitAllowed(ctx, cfg, v) && v.node.accessible
    requires Denotes(db, parent, v.dir) && Marked(db, parent)
    ensures SoundAlong(ctx, db, EntryStmts(db, cfg, NodeCols(parent, v.node), v.node.ver.mtime))
  {
    var c := NodeCols(parent, v.node);
    var id, row := EntryId(db, cfg, c), EntryRow(db, cfg, c, v.node.ver.mtime);
    EntryEffect(db, cfg, c, v.node.ver.mtime);
    EntryPut(db, cfg, c, v.node.ver.mtime, v.dir);
    if ctx.regime == OnlyModified && !OnlyTouched(db, cfg, c, v.node.ver.mtime) && row.mtime.Some? {
      NulledIsAbandoned(ctx, db, cfg, v, id, row);
    }
    PutSound(ctx, db, id, row);
  }

  /** The row `update_entry` leaves when it does more than touch: no digest, the new columns. */
  ghost predicate Opened(db: Db, id: nat, f: Node) {
    && id in db.entries && db.entries[id].digest.None? && !db.entries[id].isDir
    && db.entries[id].size == NonZero(f.ver.size) && db.entries[id].blockSize == Some(BLOCK_SIZE)
  }

  lemma BlocksPartSound(ctx: Ctx, db: Db, id: nat, chunks: seq<Bytes>)
    requires Sound(ctx, db) && id in db.entries
    requires ctx.regime != AnyHistory ==> db.entries[id].digest.None?
    ensures var ss := BlockStmts(db, ctx.hash, id, chunks, 0);
            && SoundAlong(ctx, db, ss)
            && BlocksOnly(db, Exec(db, ss), id)
            && (chunks != [] ==> BlocksAre(ctx.hash, Exec(db, ss), id, chunks, |chunks|))
  {
    var ss := BlockStmts(db, ctx.hash, id, chunks, 0);
    BlocksEffect(db, ctx.hash, id, chunks);
    assert ss[..|ss|] == ss;
    forall k | 0 <= k <= |ss|
      ensures Sound(ctx, Exec(db, ss[..k]))
    {
      BlocksSound(ctx, db, Exec(db, ss[..k]), id);
    }
  }

  lemma FileSound(ctx: Ctx, db: Db, id: nat, v: Visit, cfg: Config)
    requires Sound(ctx, db) && VisitAllowed(ctx, cfg, v) && v.node.accessible && v.node.File?
    requires Marked(db, id) && Denotes(db, id, v.FullPath())
    requires ctx.regime != AnyHistory ==> Opened(db, id, v.node)
    ensures SoundAlong(ctx, db, FileStmts(db, ctx.hash, id, v.node))
  {
    var ss := BlockStmts(db, ctx.hash, id, Delivered(v.node), 0);
    BlocksPartSound(ctx, db, id, Delivered(v.node));
    if v.node.io.ReadsToEnd? {
      var fin := Stmt.Finish(id, v.node.ver.mtime, ctx.hash.file(PadAll(v.node.ver.chunks)));
      var mid := Exec(db, ss);
      SoundAtEnd(ctx, db, ss);
      DenotesAgree(db, mid);
      FinishSound(ctx, mid, id, v, cfg);
      OneStatementSound(ctx, mid, fin);
      SoundAlongConcat(ctx, db, ss, [fin]);
    } else {
      assert ss + [] == ss;
    }
  }

  lemma OneStatementSound(ctx: Ctx, db: Db, s: Stmt)
    requires Sound(ctx, db) && Sound(ctx, Apply(db, s))
    ensures SoundAlong(ctx, db, [s])
  {
    ExecFew(db, s, s, s);
    forall k | 0 <= k <= |[s]|
      ensures Sound(ctx, Exec(db, [s][..k]))
    {
      assert [s][..k] == if k == 0 then [] else [s];
    }
  }

  lemma FinishSound(ctx: Ctx, db: Db, id: nat, v: Visit, cfg: Config)
    requires Sound(ctx, db) && VisitAllowed(ctx, cfg, v) && v.node.accessible && v.node.File?
    requires Marked(db, id) && Denotes(db, id, v.FullPath())
    requires ctx.regime != AnyHistory ==> Opened(db, id, v.node)
    requires v.node.ver.chunks != [] ==> BlocksAre(ctx.hash, db, id, v.node.ver.chunks, |v.node.ver.chunks|)
    ensures Sound(ctx, Apply(db, Stmt.Finish(id, v.node.ver.mtime, ctx.hash.file(PadAll(v.node.ver.chunks)))))
  {
    hide Consistent; hide NulledOnceLeft; hide Records; hide BlocksAre; hide Abandoned; hide UniqueKeys; hide Forest; hide BlocksOwned; hide TimesSeen;
    var row := FinishedRow(db.entries[id], v.node.ver.mtime, ctx.hash.file(PadAll(v.node.ver.chunks)));
    var to := Put(db, id, row);
    assert db.entries[id].parent != 0 && Marked(db, db.entries[id].parent);
    assert PutAllowed(db, id, row);
    DenotesKept(db, to, id, v.FullPath());
    assert TimeSeenBy(ctx, to, id, |ctx.log| - 1, v);
    if ctx.regime != AnyHistory {
      FinishRecords(ctx.hash, db, id, v);
      assert WitnessedBy(ctx, to, id, |ctx.log| - 1, v);
    }
    hide Sound; hide Structure; hide Denotes; hide Opened;
    PutSound(ctx, db, id, row);
  }

  function FinishedRow(row: Row, mtime: nat, digest: Bytes): Row {
    row.(alive := false, mtime := Some(mtime), digest := Some(digest))
  }

  lemma FinishRecords(hash: Hasher, db: Db, id: nat, v: Visit)
    requires v.node.File? && Denotes(db, id, v.FullPath()) && Opened(db, id, v.node)
    requires v.node.ver.chunks != [] ==> BlocksAre(hash, db, id, v.node.ver.chunks, |v.node.ver.chunks|)
    ensures var to := Put(db, id, FinishedRow(db.entries[id], v.node.ver.mtime, hash.file(PadAll(v.node.ver.chunks))));
            Denotes(to, id, v.FullPath()) && Records(hash, to, id, v.node)
  {
    var to := Put(db, id, FinishedRow(db.entries[id], v.node.ver.mtime, hash.file(PadAll(v.node.ver.chunks))));
    DenotesKept(db, to, id, v.FullPath());
  }

  /**
   * A `modified_only` pass that meets a file with time zero only touches its row, yet hashes the
   * file again when the stored time differs from zero.
   */
  ghost predicate TimeSafe(db: Db, cfg: Config, parent: nat, n: Node) {
    cfg.modifiedOnly && n.File? && n.ver.mtime == 0 ==> OldTime(db, NodeCols(parent, n)) == 0
  }

  lemma NodeSound(ctx: Ctx, db: Db, cfg: Config, parent: nat, v: Visit)
    requires Sound(ctx, db) && VisitAllowed(ctx, cfg, v) && v.node.accessible
    requires Denotes(db, parent, v.dir) && Marked(db, parent)
    requires ctx.regime != AnyHistory ==> TimeSafe(db, cfg, parent, v.node)
    ensures SoundAlong(ctx, db, NodeStmts(db, cfg, parent, v.node))
  {
    var c := NodeCols(parent, v.node);
    var entry := EntryStmts(db, cfg, c, v.node.ver.mtime);
    NodeEntrySound(ctx, db, cfg, parent, v);
    if Rehashed(db, cfg, parent, v.node) {
      EntryEffect(db, cfg, c, v.node.ver.mtime);
      EntryPut(db, cfg, c, v.node.ver.mtime, v.dir);
      SoundAtEnd(ctx, db, entry);
      FileSound(ctx, Exec(db, entry), EntryId(db, cfg, c), v, cfg);
      SoundAlongConcat(ctx, db, entry, FileStmts(Exec(db, entry), cfg.hash, EntryId(db, cfg, c), v.node));
    } else {
      assert entry + [] == entry;
    }
  }

  /** `to` extends `from`: no row is lost, renamed or unmarked. */
  ghost predicate Grows(from: Db, to: Db) {
    KeepsKeys(from, to) && forall id :: Marked(from, id) ==> Marked(to, id)
  }

  lemma CacheKept(from: Db, to: Db, cache: Cache)
    requires Grows(from, to) && CacheOk(from, cache)
    ensures CacheOk(to, cache)
  {
    forall p | p in cache
      ensures Denotes(to, cache[p], p)
    {
      DenotesKept(from, to, cache[p], p);
    }
  }

  ghost predicate Placed(v: Visit) {
    v.dir != [] && v.level == |v.dir|
  }

  /** The parent row is found in the cache, or is the root row and is brought up to date now. */
  lemma ParentGrows(db: Db, cfg: Config, cache: Cache, v: Visit)
    requires Structure(db) && FreshIds(cfg.rowids) && Placed(v) && CacheOk(db, cache)
    requires v.dir in cache || v.level <= 1
    ensures var to, id := Exec(db, ParentStmts(db, cfg, cache, v)), ParentId(db, cfg, cache, v);
            && Structure(to) && Grows(db, to)
            && Denotes(to, id, v.dir) && Marked(to, id) && CacheOk(to, Emplace(cache, v.dir, id))
  {
    if v.dir !in cache {
      RootGrows(db, cfg, v.dir);
      hide EntryStmts; hide EntryId; hide Structure; hide Denotes; hide Grows; hide CacheOk;
      CacheKept(db, Exec(db, ParentStmts(db, cfg, cache, v)), cache);
      CacheEmplace(Exec(db, ParentStmts(db, cfg, cache, v)), cache, v.dir, ParentId(db, cfg, cache, v));
    } else {
      GrowsSelf(db);
    }
  }

  /** The row of a root directory is brought up to date without losing anything. */
  lemma RootGrows(db: Db, cfg: Config, dir: Path)
    requires Structure(db) && FreshIds(cfg.rowids) && |dir| == 1
    ensures var to, id := Exec(db, EntryStmts(db, cfg, RootCols(dir), 0)), EntryId(db, cfg, RootCols(dir));
            Structure(to) && Grows(db, to) && Denotes(to, id, dir) && Marked(to, id)
  {
    hide EntryStmts; hide EntryId; hide EntryRow; hide Structure; hide Denotes;
    var c := RootCols(dir);
    EntryEffect(db, cfg, c, 0);
    EntryPut(db, cfg, c, 0, []);
    PutKeepsStructure(db, EntryId(db, cfg, c), EntryRow(db, cfg, c, 0));
    assert [] + [c.name] == dir;
  }

  lemma ParentSound(ctx: Ctx, db: Db, cfg: Config, cache: Cache, v: Visit)
    requires Sound(ctx, db) && FreshIds(cfg.rowids)
    ensures SoundAlong(ctx, db, ParentStmts(db, cfg, cache, v))
  {
    if v.dir in cache {
      NothingSound(ctx, db);
    } else {
      RootEntrySound(ctx, db, cfg, v.dir);
    }
  }

  lemma NodeEntries(db: Db, cfg: Config, parent: nat, n: Node)
    requires FreshIds(cfg.rowids) && BlocksOwned(db)
    ensures Exec(db, NodeStmts(db, cfg, parent, n)).entries ==
              db.entries[EntryId(db, cfg, NodeCols(parent, n)) := NodeRow(db, cfg, parent, n)]
  {
    NodeEffect(db, cfg, parent, n);
  }

  lemma NodePutAllowed(db: Db, cfg: Config, parent: nat, v: Visit)
    requires Structure(db) && FreshIds(cfg.rowids)
    requires v.dir != [] && Denotes(db, parent, v.dir) && Marked(db, parent)
    ensures var id, row := EntryId(db, cfg, NodeCols(parent, v.node)), NodeRow(db, cfg, parent, v.node);
            PutAllowed(db, id, row) && Denotes(Put(db, id, row), id, v.FullPath())
  {
    var c := NodeCols(parent, v.node);
    var id, row := EntryId(db, cfg, c), NodeRow(db, cfg, parent, v.node);
    EntryPut(db, cfg, c, v.node.ver.mtime, v.dir);
    DenotesKept(Put(db, id, EntryRow(db, cfg, c, v.node.ver.mtime)), Put(db, id, row), id, v.FullPath());
  }

  lemma OwnsBlocks(db: Db)
    requires Structure(db)
    ensures BlocksOwned(db)
  {
  }

  lemma NodeGrows(db: Db, cfg: Config, parent: nat, v: Visit)
    requires Structure(db) && FreshIds(cfg.rowids)
    requires v.dir != [] && Denotes(db, parent, v.dir) && Marked(db, parent)
    ensures var to, id := Exec(db, NodeStmts(db, cfg, parent, v.node)), EntryId(db, cfg, NodeCols(parent, v.node));
            && Grows(db, to) && Denotes(to, id, v.FullPath()) && Marked(to, id)
  {
    hide NodeRow; hide EntryId; hide NodeStmts; hide Structure; hide Denotes;
    assert BlocksOwned(db) by { OwnsBlocks(db); }
    var to, id := Exec(db, NodeStmts(db, cfg, parent, v.node)), EntryId(db, cfg, NodeCols(parent, v.node));
    NodePutAllowed(db, cfg, parent, v);
    NodeEntries(db, cfg, parent, v.node);
    DenotesAgree(Put(db, id, NodeRow(db, cfg, parent, v.node)), to);
  }

  /** The two visits are of one file, first seen at another time and now at time zero. */
  ghost predicate TurnedZero(w: Visit, v: Visit) {
    && w.node.accessible && w.node.File? && v.node.accessible && v.node.File?
    && w.FullPath() == v.FullPath() && w.node.ver.mtime != 0 && v.node.ver.mtime == 0
  }

  ghost predicate TimeAllowed(ctx: Ctx, cfg: Config, v: Visit) {
    ctx.regime != AnyHistory && cfg.modifiedOnly ==>
      forall t: nat, w :: t < |ctx.log| - 1 && w in ctx.log[t] ==> !TurnedZero(w, v)
  }

  /** What the log allows keeps the row and the file from disagreeing about time zero. */
  lemma AllowedIsSafe(ctx: Ctx, db: Db, cfg: Config, parent: nat, v: Visit)
    requires Sound(ctx, db) && VisitAllowed(ctx, cfg, v) && TimeAllowed(ctx, cfg, v) && ctx.regime != AnyHistory
    requires v.node.accessible && Denotes(db, parent, v.dir)
    ensures TimeSafe(db, cfg, parent, v.node)
  {
    hide Consistent; hide NulledOnceLeft; hide UniqueKeys; hide Forest; hide MarksClosed; hide BlocksOwned; hide RootRows;
    var f := Find(db, parent, v.node.name);
    if cfg.modifiedOnly && v.node.File? && v.node.ver.mtime == 0 && f.Some? && ReadTime(db.entries[f.value]) != 0 {
      assert v.FullPath()[..|v.dir|] == v.dir;
      assert Denotes(db, f.value, v.FullPath());
      assert TimeSeen(ctx, db, f.value);
      var t: nat, w: Visit :| TimeSeenBy(ctx, db, f.value, t, w);
      DenotesOnePath(db, f.value, w.FullPath(), v.FullPath());
      hide Denotes;
      assert w.node.ver.mtime != 0 && SeenAt(ctx.log, t, w);
      if t == |ctx.log| - 1 {
        OneVisitPerPath(ctx.log[t], v, w);
      } else {
        NotTurned(ctx, cfg, v, t, w);
      }
    }
  }

  lemma NotTurned(ctx: Ctx, cfg: Config, v: Visit, t: nat, w: Visit)
    requires TimeAllowed(ctx, cfg, v) && ctx.regime != AnyHistory && cfg.modifiedOnly
    requires t < |ctx.log| - 1 && SeenAt(ctx.log, t, w)
    ensures !TurnedZero(w, v)
  {
  }

  lemma ManipulateSound(ctx: Ctx, db: Db, cfg: Config, cache: Cache, v: Visit)
    requires Sound(ctx, db) && VisitAllowed(ctx, cfg, v) && TimeAllowed(ctx, cfg, v) && CacheOk(db, cache)
    ensures SoundAlong(ctx, db, Manipulate(db, cfg, cache, v).stmts)
  {
    if !v.node.accessible || (v.dir !in cache && v.level > 1) {
      NothingSound(ctx, db);
    } else {
      var s, parent := ParentStmts(db, cfg, cache, v), ParentId(db, cfg, cache, v);
      ParentSound(ctx, db, cfg, cache, v);
      SoundAtEnd(ctx, db, s);
      ParentGrows(db, cfg, cache, v);
      if ctx.regime != AnyHistory {
        AllowedIsSafe(ctx, Exec(db, s), cfg, parent, v);
      }
      NodeSound(ctx, Exec(db, s), cfg, parent, v);
      SoundAlongConcat(ctx, db, s, NodeStmts(Exec(db, s), cfg, parent, v.node));
    }
  }

  ghost predicate Processed(cache: Cache, v: Visit) {
    v.node.accessible && (v.dir in cache || v.level <= 1)
  }

  /** A visit that is neither skipped nor refused is the parent's statements, then the entry's. */
  lemma ManipulateSplit(db: Db, cfg: Config, cache: Cache, v: Visit)
    requires Processed(cache, v)
    ensures var mid, parent := Exec(db, ParentStmts(db, cfg, cache, v)), ParentId(db, cfg, cache, v);
            var m := Manipulate(db, cfg, cache, v);
            && Exec(db, m.stmts) == Exec(mid, NodeStmts(mid, cfg, parent, v.node))
            && !m.threw
            && m.cache == (if v.node.Dir? then
                             Emplace(Emplace(cache, v.dir, parent), v.FullPath(), EntryId(mid, cfg, NodeCols(parent, v.node)))
                           else Emplace(cache, v.dir, parent))
  {
    var s := ParentStmts(db, cfg, cache, v);
    ExecConcat(db, s, NodeStmts(Exec(db, s), cfg, ParentId(db, cfg, cache, v), v.node));
  }

  lemma GrowsSelf(db: Db)
    ensures Grows(db, db)
  {
  }

  lemma GrowsTrans(a: Db, b: Db, c: Db)
    requires Grows(a, b) && Grows(b, c)
    ensures Grows(a, c)
  {
  }

  lemma CacheEmplace(db: Db, cache: Cache, p: Path, id: nat)
    requires CacheOk(db, cache) && Denotes(db, id, p) && Marked(db, id)
    ensures CacheOk(db, Emplace(cache, p, id))
  {
  }

  lemma ManipulateCache(db: Db, cfg: Config, cache: Cache, v: Visit)
    requires Structure(db) && FreshIds(cfg.rowids) && Placed(v) && CacheOk(db, cache)
    ensures var m := Manipulate(db, cfg, cache, v);
            CacheOk(Exec(db, m.stmts), m.cache) && Grows(db, Exec(db, m.stmts))
  {
    hide EntryId; hide NodeStmts; hide ParentStmts; hide ParentId; hide Denotes; hide CacheOk; hide Structure; hide Grows;
    if !Processed(cache, v) {
      assert Manipulate(db, cfg, cache, v).stmts == [] && Manipulate(db, cfg, cache, v).cache == cache;
      GrowsSelf(db);
    } else {
      hide Manipulate; hide Emplace;
      var mid, parent := Exec(db, ParentStmts(db, cfg, cache, v)), ParentId(db, cfg, cache, v);
      var to := Exec(mid, NodeStmts(mid, cfg, parent, v.node));
      ManipulateSplit(db, cfg, cache, v);
      ParentGrows(db, cfg, cache, v);
      NodeGrows(mid, cfg, parent, v);
      GrowsTrans(db, mid, to);
      CacheKept(mid, to, Emplace(cache, v.dir, parent));
      CacheEmplace(to, Emplace(cache, v.dir, parent), v.FullPath(), EntryId(mid, cfg, NodeCols(parent, v.node)));
    }
  }

  /** The scan keeps the invariant at every boundary, and the cache agrees with the table throughout. */
  lemma {:induction false} ScanSound(ctx: Ctx, db: Db, cfg: Config, cache: Cache, vs: seq<Visit>)
    requires Sound(ctx, db) && CacheOk(db, cache)
    requires forall v :: v in vs ==> VisitAllowed(ctx, cfg, v) && TimeAllowed(ctx, cfg, v)
    ensures var scan := ScanAll(db, cfg, cache, vs);
            SoundAlong(ctx, db, scan.stmts) && CacheOk(Exec(db, scan.stmts), scan.cache)
    decreases |vs|
  {
    if vs == [] {
      NothingSound(ctx, db);
    } else {
      var m := Manipulate(db, cfg, cache, vs[0]);
      ManipulateSound(ctx, db, cfg, cache, vs[0]);
      ManipulateCache(db, cfg, cache, vs[0]);
      if !m.threw {
        var mid := Exec(db, m.stmts);
        SoundAtEnd(ctx, db, m.stmts);
        ScanSound(ctx, mid, cfg, m.cache, vs[1..]);
        SoundAlongConcat(ctx, db, m.stmts, ScanAll(mid, cfg, m.cache, vs[1..]).stmts);
        ExecConcat(db, m.stmts, ScanAll(mid, cfg, m.cache, vs[1..]).stmts);
      }
    }
  }

  // ---------------------------------------------------------------- histories

  /** A run allowed in a history of this regime. */
  ghost predicate RunAllowed(regime: Regime, hash: Hasher, run: Run) {
    && run.Valid() && run.cfg.hash == hash
    && (regime == OnlyModified ==> run.cfg.modifiedOnly)
  }

  /** No file seen at another time before is seen at time zero now. */
  ghost predicate NoneTurnedZero(before: seq<Visit>, now: seq<Visit>) {
    forall w, v :: w in before && v in now ==> !TurnedZero(w, v)
  }

  ghost predicate TimesAllowed(regime: Regime, runs: seq<Run>) {
    regime != AnyHistory ==>
      forall j, i :: 0 <= j < i < |runs| && runs[i].cfg.modifiedOnly ==> NoneTurnedZero(runs[j].Visits(), runs[i].Visits())
  }

  /** A sweep of this pass that is committed after its first DELETE takes no blocks of a row with a digest. */
  ghost predicate SweepAllowed(regime: Regime, db: Db, run: Run) {
    var scan := ScanAll(db, run.cfg, map[], run.Reached());
    regime != AnyHistory && run.end.SweepFails? && !run.end.rows && !scan.threw ==> Spares(Exec(db, scan.stmts))
  }

  ghost predicate SweepsAllowed(regime: Regime, runs: seq<Run>) {
    forall i :: 0 <= i < |runs| ==> SweepAllowed(regime, AfterHistory(runs[..i]), runs[i])
  }

  ghost predicate HistoryAllowed(regime: Regime, hash: Hasher, runs: seq<Run>) {
    (forall run :: run in runs ==> RunAllowed(regime, hash, run)) && TimesAllowed(regime, runs) && SweepsAllowed(regime, runs)
  }

  lemma SweepsAllowedBefore(regime: Regime, history: seq<Run>, run: Run)
    requires SweepsAllowed(regime, history + [run])
    ensures SweepsAllowed(regime, history) && SweepAllowed(regime, AfterHistory(history), run)
  {
    hide SweepAllowed;
    var all := history + [run];
    assert all[|history|] == run && all[..|history|] == history;
    forall i | 0 <= i < |history|
      ensures SweepAllowed(regime, AfterHistory(history[..i]), history[i])
    {
      assert all[i] == history[i] && all[..i] == history[..i];
    }
  }

  lemma HistoryAllowedBefore(regime: Regime, hash: Hasher, history: seq<Run>, run: Run)
    requires HistoryAllowed(regime, hash, history + [run])
    ensures HistoryAllowed(regime, hash, history) && RunAllowed(regime, hash, run)
    ensures SweepAllowed(regime, AfterHistory(history), run)
    ensures regime != AnyHistory && run.cfg.modifiedOnly ==>
              forall j :: 0 <= j < |history| ==> NoneTurnedZero(history[j].Visits(), run.Visits())
  {
    hide RunAllowed; hide NoneTurnedZero; hide SweepsAllowed; hide SweepAllowed;
    SweepsAllowedBefore(regime, history, run);
    var all := history + [run];
    assert forall r :: r in history ==> r in all;
    assert run in all && all[|history|] == run;
    forall j, i | 0 <= j < i < |history| && history[i].cfg.modifiedOnly && regime != AnyHistory
      ensures NoneTurnedZero(history[j].Visits(), history[i].Visits())
    {
      assert all[i] == history[i] && all[j] == history[j];
    }
    forall j | 0 <= j < |history| && regime != AnyHistory && run.cfg.modifiedOnly
      ensures NoneTurnedZero(history[j].Visits(), run.Visits())
    {
      assert all[j] == history[j];
    }
  }

  /** What the log before the last pass says about the times of the last pass. */
  ghost predicate LastAllowed(ctx: Ctx, run: Run) {
    ctx.regime != AnyHistory && run.cfg.modifiedOnly ==>
      forall j :: 0 <= j < |ctx.log| - 1 ==> NoneTurnedZero(ctx.log[j], run.Visits())
  }

  function Log(runs: seq<Run>): (log: seq<seq<Visit>>)
    ensures |log| == |runs|
  {
    seq(|runs|, i requires 0 <= i < |runs| => runs[i].Visits())
  }

  lemma RunVisitsAllowed(ctx: Ctx, run: Run)
    requires RunAllowed(ctx.regime, ctx.hash, run) && ctx.log != [] && ctx.log[|ctx.log| - 1] == run.Visits()
    requires LastAllowed(ctx, run)
    ensures forall v :: v in run.Reached() ==> VisitAllowed(ctx, run.cfg, v) && TimeAllowed(ctx, run.cfg, v)
  {
    PreorderDistinct(run.tree, [run.root], IndexerOptions());
    forall v | v in run.Reached()
      ensures VisitAllowed(ctx, run.cfg, v) && TimeAllowed(ctx, run.cfg, v)
    {
      assert v in run.Visits();
      PreorderUnder(run.tree, [run.root], IndexerOptions(), v);
    }
  }

  lemma ClosingSound(ctx: Ctx, db: Db, run: Run)
    requires Sound(ctx, db) && !run.end.CutAfter?
    requires ctx.regime != AnyHistory && run.end.SweepFails? && !run.end.rows ==> Spares(db)
    ensures SoundAlong(ctx, db, [run.Closing()])
  {
    hide Sound; hide Apply; hide SoundAlong;
    if run.Sweeps() {
      SweepSound(ctx, db);
    } else if run.end.rows {
      SweepRowsSound(ctx, db);
    } else {
      SweepBlocksSound(ctx, db);
    }
    OneStatementSound(ctx, db, run.Closing());
  }

  lemma RunSound(ctx: Ctx, db: Db, run: Run)
    requires Sound(ctx, db) && RunAllowed(ctx.regime, ctx.hash, run) && SweepAllowed(ctx.regime, db, run)
    requires ctx.log != [] && ctx.log[|ctx.log| - 1] == run.Visits() && LastAllowed(ctx, run)
    ensures SoundAlong(ctx, db, RunStmts(db, run))
  {
    hide Sound; hide Spares;
    var scan := ScanAll(db, run.cfg, map[], run.Reached());
    var ss := RunStmts(db, run);
    RunVisitsAllowed(ctx, run);
    ScanSound(ctx, db, run.cfg, map[], run.Reached());
    if run.end.CutAfter? && run.end.statements <= |scan.stmts| {
      forall k | 0 <= k <= |ss|
        ensures Sound(ctx, Exec(db, ss[..k]))
      {
        assert ss[..k] == scan.stmts[..k];
      }
    } else if !run.end.CutAfter? && !scan.threw {
      SoundAtEnd(ctx, db, scan.stmts);
      ClosingSound(ctx, Exec(db, scan.stmts), run);
      SoundAlongConcat(ctx, db, scan.stmts, [run.Closing()]);
    }
  }

  lemma NothingYet(regime: Regime, hash: Hasher)
    ensures Sound(Ctx(regime, hash, []), EMPTY)
  {
  }

  lemma LastIsAllowed(regime: Regime, hash: Hasher, history: seq<Run>, run: Run)
    requires regime != AnyHistory && run.cfg.modifiedOnly ==>
               forall j :: 0 <= j < |history| ==> NoneTurnedZero(history[j].Visits(), run.Visits())
    ensures Log(history + [run]) == Log(history) + [run.Visits()]
    ensures LastAllowed(Ctx(regime, hash, Log(history + [run])), run)
  {
    hide NoneTurnedZero; hide Preorder;
    assert forall j :: 0 <= j < |history| ==> Log(history + [run])[j] == history[j].Visits();
  }

  /** One more pass over tables that are sound. */
  lemma NextSound(regime: Regime, hash: Hasher, history: seq<Run>, run: Run)
    requires HistoryAllowed(regime, hash, history + [run])
    requires Sound(Ctx(regime, hash, Log(history)), AfterHistory(history))
    ensures SoundAlong(Ctx(regime, hash, Log(history + [run])), AfterHistory(history), RunStmts(AfterHistory(history), run))
  {
    hide HistoryAllowed; hide RunAllowed; hide SweepAllowed; hide LastAllowed; hide NoneTurnedZero; hide Sound; hide RunStmts; hide SoundAlong;
    hide AfterHistory;
    HistoryAllowedBefore(regime, hash, history, run);
    LogGrows(Ctx(regime, hash, Log(history)), run.Visits(), AfterHistory(history));
    LastIsAllowed(regime, hash, history, run);
    RunSound(Ctx(regime, hash, Log(history + [run])), AfterHistory(history), run);
  }

  lemma {:induction false} HistorySound(regime: Regime, hash: Hasher, runs: seq<Run>)
    requires HistoryAllowed(regime, hash, runs)
    ensures Sound(Ctx(regime, hash, Log(runs)), AfterHistory(runs))
    decreases |runs|
  {
    hide HistoryAllowed; hide Sound; hide RunStmts; hide SoundAlong; hide Log;
    if runs == [] {
      NothingYet(regime, hash);
      assert Log(runs) == [];
    } else {
      var before, run := runs[..|runs| - 1], runs[|runs| - 1];
      assert runs == before + [run];
      HistoryAllowedBefore(regime, hash, before, run);
      HistorySound(regime, hash, before);
      NextSound(regime, hash, before, run);
      SoundAtEnd(Ctx(regime, hash, Log(runs)), AfterHistory(before), RunStmts(AfterHistory(before), run));
    }
  }
}
