/** The main theorems about whole histories of passes, at every statement boundary. */
module History {
  import opened Common
  import opened Tree
  import opened Store
  import opened Pass
  import opened Integrity

  /** The tables after `history` and the first `k` statements of a further pass. */
  ghost function Boundary(history: seq<Run>, run: Run, k: nat): Db
    requires k <= |RunStmts(AfterHistory(history), run)|
  {
    Exec(AfterHistory(history), RunStmts(AfterHistory(history), run)[..k])
  }

  lemma BoundarySound(regime: Regime, hash: Hasher, history: seq<Run>, run: Run, k: nat)
    requires HistoryAllowed(regime, hash, history + [run])
    requires k <= |RunStmts(AfterHistory(history), run)|
    ensures Sound(Ctx(regime, hash, Log(history + [run])), Boundary(history, run, k))
  {
    HistoryAllowedBefore(regime, hash, history, run);
    HistorySound(regime, hash, history);
    NextSound(regime, hash, history, run);
  }

  /**
   * Integrity at every statement boundary of every history: parents exist, parent chains are
   * finite, marks are closed upward, block rows belong to existing rows, and so an unused rowid
   * has no block rows waiting for it.
   */
  lemma IntegrityAtEveryBoundary(hash: Hasher, history: seq<Run>, run: Run, k: nat)
    requires HistoryAllowed(AnyHistory, hash, history + [run])
    requires k <= |RunStmts(AfterHistory(history), run)|
    ensures var db := Boundary(history, run, k);
            && (forall id :: id in db.entries ==> db.entries[id].parent == 0 || db.entries[id].parent in db.entries)
            && Forest(db) && UniqueKeys(db)
            && (forall id :: Marked(db, id) && db.entries[id].parent != 0 ==> Marked(db, db.entries[id].parent))
            && (forall id: nat, no: nat :: (id, no) in db.blocks ==> id in db.entries)
  {
    BoundarySound(AnyHistory, hash, history, run, k);
    ReferencesHold(Boundary(history, run, k));
  }

  lemma ReferencesHold(db: Db)
    requires Structure(db)
    ensures forall id :: id in db.entries ==> db.entries[id].parent == 0 || db.entries[id].parent in db.entries
    ensures forall id: nat, no: nat :: (id, no) in db.blocks ==> id in db.entries
  {
    forall id | id in db.entries
      ensures db.entries[id].parent == 0 || db.entries[id].parent in db.entries
    {
      var p :| Denotes(db, id, p);
      assert |p| > 1 ==> Denotes(db, db.entries[id].parent, p[..|p| - 1]);
    }
    forall id: nat, no: nat | (id, no) in db.blocks
      ensures id in db.entries
    {
      var k := (id, no);
      assert k in db.blocks && k.0 == id;
    }
  }

  /** The sweep removes no row on which a surviving row depends. */
  lemma SweepOrphansNothing(hash: Hasher, history: seq<Run>)
    requires HistoryAllowed(AnyHistory, hash, history)
    ensures var db := AfterHistory(history);
            var swept := Apply(db, Sweep);
            && (forall id :: id in swept.entries ==> swept.entries[id].parent == 0 || swept.entries[id].parent in swept.entries)
            && (forall k :: k in swept.blocks <==> k in db.blocks && k.0 in swept.entries)
  {
    HistorySound(AnyHistory, hash, history);
    SweepKeepsStructure(AfterHistory(history));
    ReferencesHold(Apply(AfterHistory(history), Sweep));
    SweptBlocks(AfterHistory(history));
  }

  lemma SweptBlocks(db: Db)
    requires BlocksOwned(db)
    ensures forall k :: k in Apply(db, Sweep).blocks <==> k in db.blocks && k.0 in Apply(db, Sweep).entries
  {
  }

  /**
   * Crash consistency: at every statement boundary, a row with a digest describes a version of
   * its file that some pass could see - time, size, digest and, unless the file is empty, blocks -
   * as long as no `modified_only` pass sees a file at time zero that an earlier one saw at another,
   * and no sweep is committed after a first DELETE that took the blocks of a row with a digest.
   */
  lemma CrashConsistency(hash: Hasher, history: seq<Run>, run: Run, k: nat, id: nat)
    requires HistoryAllowed(SafeTimes, hash, history + [run])
    requires k <= |RunStmts(AfterHistory(history), run)|
    requires id in Boundary(history, run, k).entries && Boundary(history, run, k).entries[id].digest.Some?
    ensures var db := Boundary(history, run, k);
            exists t, v :: SeenAt(Log(history + [run]), t, v) && v.node.File? && Denotes(db, id, v.FullPath())
              && Records(hash, db, id, v.node)
  {
    BoundarySound(SafeTimes, hash, history, run, k);
    var db := Boundary(history, run, k);
    var ctx := Ctx(SafeTimes, hash, Log(history + [run]));
    assert Witnessed(ctx, db, id);
    var t, v :| WitnessedBy(ctx, db, id, t, v);
    assert SeenAt(Log(history + [run]), t, v);
  }

  // ---------------------------------------------------------------- files whose time is zero

  /** The visit of this entry with the file in state `ver`, read to its end. */
  function WithVersion(v: Visit, ver: Version): Visit {
    v.(node := File(v.node.name, ver, true, ReadsToEnd))
  }

  /** A state a listing can show: the size is the number of bytes the file delivers. */
  predicate Deliverable(ver: Version) {
    ValidChunks(ver.chunks) && ver.size == Length(ver.chunks)
  }

  function Length(chunks: seq<Bytes>): nat {
    if chunks == [] then 0 else |chunks[0]| + Length(chunks[1..])
  }

  /** Visiting the file in state `ver` keeps stored digests truthful at every boundary. */
  ghost predicate StaysConsistent(ctx: Ctx, db: Db, cfg: Config, parent: nat, v: Visit, ver: Version) {
    var w := WithVersion(v, ver);
    SoundAlong(ctx.(log := ctx.log + [[w]]), db, NodeStmts(db, cfg, parent, w.node))
  }

  /**
   * The one hole in crash consistency, exactly: a `modified_only` pass that finds a row for the
   * file keeps digests truthful whatever the file holds if and only if the file's time is not zero
   * or the stored time is. (Otherwise the row is only touched, but the file is hashed again.)
   */
  lemma ZeroTimeExactly(ctx: Ctx, db: Db, cfg: Config, parent: nat, v: Visit, mtime: nat)
    requires ctx.regime == SafeTimes && Sound(ctx, db)
    requires cfg.modifiedOnly && cfg.hash == ctx.hash && FreshIds(cfg.rowids)
    requires Placed(v) && Denotes(db, parent, v.dir) && Marked(db, parent)
    requires Find(db, parent, v.node.name).Some?
    requires forall t, w :: SeenAt(ctx.log, t, w) && w.FullPath() == v.FullPath() ==> w.node.ver.mtime != 0
    ensures (forall ver: Version :: ver.mtime == mtime && Deliverable(ver) ==> StaysConsistent(ctx, db, cfg, parent, v, ver)) <==>
              (mtime != 0 || ReadTime(db.entries[Find(db, parent, v.node.name).value]) == 0)
  {
    var row := db.entries[Find(db, parent, v.node.name).value];
    if mtime != 0 || ReadTime(row) == 0 {
      forall ver: Version | ver.mtime == mtime && Deliverable(ver)
        ensures StaysConsistent(ctx, db, cfg, parent, v, ver)
      {
        var w := WithVersion(v, ver);
        LogGrows(ctx, [w], db);
        NodeSound(ctx.(log := ctx.log + [[w]]), db, cfg, parent, w);
      }
    } else {
      var ver := if row.size.None? then Version(0, 1, [[0]]) else Version(0, 0, []);
      assert Length([[0]]) == 1 + Length([]);
      ZeroTimeBreaks(ctx, db, cfg, parent, v, ver);
    }
  }

  lemma ZeroTimeBreaks(ctx: Ctx, db: Db, cfg: Config, parent: nat, v: Visit, ver: Version)
    requires ctx.regime == SafeTimes && Sound(ctx, db)
    requires cfg.modifiedOnly && cfg.hash == ctx.hash && FreshIds(cfg.rowids)
    requires Placed(v) && Denotes(db, parent, v.dir) && Marked(db, parent)
    requires forall t, w :: SeenAt(ctx.log, t, w) && w.FullPath() == v.FullPath() ==> w.node.ver.mtime != 0
    requires Find(db, parent, v.node.name).Some? && ver.mtime == 0
    requires var row := db.entries[Find(db, parent, v.node.name).value];
             ReadTime(row) != 0 && row.size != NonZero(ver.size)
    ensures !StaysConsistent(ctx, db, cfg, parent, v, ver)
  {
    var w := WithVersion(v, ver);
    var more := ctx.(log := ctx.log + [[w]]);
    var ss := NodeStmts(db, cfg, parent, w.node);
    var id := EntryId(db, cfg, NodeCols(parent, w.node));
    if SoundAlong(more, db, ss) {
      SoundAtEnd(more, db, ss);
      NodeEntries(db, cfg, parent, w.node);
      NodeGrows(db, cfg, parent, w);
      WrongSizeUnwitnessed(ctx, w, Exec(db, ss), id);
    }
  }

  lemma WrongSizeUnwitnessed(ctx: Ctx, w: Visit, db: Db, id: nat)
    requires 0 !in db.entries && Denotes(db, id, w.FullPath())
    requires forall t, x :: SeenAt(ctx.log, t, x) && x.FullPath() == w.FullPath() ==> x.node.ver.mtime != w.node.ver.mtime
    requires db.entries[id].mtime == Some(w.node.ver.mtime) && db.entries[id].size != NonZero(w.node.ver.size)
    ensures !Witnessed(ctx.(log := ctx.log + [[w]]), db, id)
  {
    var more := ctx.(log := ctx.log + [[w]]);
    if Witnessed(more, db, id) {
      var t: nat, x: Visit :| WitnessedBy(more, db, id, t, x);
      DenotesOnePath(db, id, x.FullPath(), w.FullPath());
      if t < |ctx.log| {
        assert SeenAt(ctx.log, t, x);
      }
    }
  }
  // ---------------------------------------------------------------- a sweep that fails

  /** Every file a pass has seen delivers as many bytes as its listing said. */
  ghost predicate SizesTrue(log: seq<seq<Visit>>) {
    forall t, v :: SeenAt(log, t, v) && v.node.File? ==> Deliverable(v.node.ver)
  }

  lemma NothingDelivered(ver: Version)
    requires Deliverable(ver)
    ensures ver.size == 0 <==> ver.chunks == []
  {
  }

  /** Every row the sweep would remove is without a digest, or is that of an empty file. */
  ghost predicate OnlyEmptyAtStake(db: Db) {
    forall id :: id in db.entries && db.entries[id].alive && db.entries[id].digest.Some? ==> db.entries[id].size.None?
  }

  lemma NoBlocksLeft(hash: Hasher, db: Db, id: nat, f: Node)
    requires f.File? && id in db.entries && db.entries[id].alive && Records(hash, Apply(db, SweepBlocks), id, f)
    ensures f.ver.chunks == []
  {
    hide Pad; hide PadAll;
    assert (id, 1) !in Apply(db, SweepBlocks).blocks;
  }

  /** A row whose blocks are gone still records an empty file. */
  lemma EmptyStaysRecorded(ctx: Ctx, db: Db, id: nat)
    requires id in db.entries && db.entries[id].size.None? && SizesTrue(ctx.log) && Witnessed(ctx, db, id)
    ensures Witnessed(ctx, Apply(db, SweepBlocks), id)
  {
    hide Pad; hide PadAll; hide Denotes;
    var to := Apply(db, SweepBlocks);
    var t: nat, v: Visit :| WitnessedBy(ctx, db, id, t, v);
    NothingDelivered(v.node.ver);
    DenotesAgree(db, to);
    assert WitnessedBy(ctx, to, id, t, v);
  }

  lemma OnlyEmptyIsSound(ctx: Ctx, db: Db)
    requires ctx.regime != AnyHistory && Sound(ctx, db) && SizesTrue(ctx.log) && OnlyEmptyAtStake(db)
    ensures Sound(ctx, Apply(db, SweepBlocks))
  {
    hide Structure; hide RowKept; hide Witnessed; hide Abandoned; hide TimesSeen; hide SizesTrue; hide Denotes;
    var to := Apply(db, SweepBlocks);
    SweepBlocksKeepsStructure(db);
    SameRowsSameTimes(ctx, db, to);
    forall i | i in to.entries
      ensures db.entries[i].digest.Some? ==> Witnessed(ctx, to, i)
      ensures Abandoned(ctx, db, i) ==> Abandoned(ctx, to, i)
    {
      SameRowsAbandoned(ctx, db, to, i);
      if db.entries[i].digest.Some? && db.entries[i].alive {
        EmptyStaysRecorded(ctx, db, i);
      } else if db.entries[i].digest.Some? {
        SparedRow(db, i);
        WitnessKept(ctx, db, to, i);
      }
    }
  }

  /**
   * The other hole: a sweep whose second DELETE throws is committed with the first. Stored digests
   * are truthful after it if and only if every unmarked row with a digest is that of an empty file.
   */
  lemma HalfSweepExactly(ctx: Ctx, db: Db)
    requires ctx.regime != AnyHistory && Sound(ctx, db) && SizesTrue(ctx.log)
    ensures Sound(ctx, Apply(db, SweepBlocks)) <==> OnlyEmptyAtStake(db)
  {
    var to := Apply(db, SweepBlocks);
    if OnlyEmptyAtStake(db) {
      OnlyEmptyIsSound(ctx, db);
    } else if Sound(ctx, to) {
      var id :| id in db.entries && db.entries[id].alive && db.entries[id].digest.Some? && db.entries[id].size.Some?;
      HalfSweptIsEmpty(ctx, db, id);
    }
  }

  lemma HalfSweptIsEmpty(ctx: Ctx, db: Db, id: nat)
    requires ctx.regime != AnyHistory && SizesTrue(ctx.log) && Sound(ctx, Apply(db, SweepBlocks))
    requires id in db.entries && db.entries[id].alive && db.entries[id].digest.Some?
    ensures db.entries[id].size.None?
  {
    hide Structure; hide TimesSeen; hide BlocksAre; hide Denotes;
    var to := Apply(db, SweepBlocks);
    assert Witnessed(ctx, to, id);
    var t: nat, v: Visit :| WitnessedBy(ctx, to, id, t, v);
    NoBlocksLeft(ctx.hash, db, id, v.node);
    NothingDelivered(v.node.ver);
  }

  /** The same for a whole pass that ends so. */
  lemma HalfSweptPassExactly(ctx: Ctx, db: Db, run: Run)
    requires ctx.regime != AnyHistory && Sound(ctx, db) && SizesTrue(ctx.log) && RunAllowed(ctx.regime, ctx.hash, run)
    requires ctx.log != [] && ctx.log[|ctx.log| - 1] == run.Visits() && LastAllowed(ctx, run)
    requires run.end.SweepFails? && !run.end.rows && !ScanAll(db, run.cfg, map[], run.Reached()).threw
    ensures SoundAlong(ctx, db, RunStmts(db, run)) <==> OnlyEmptyAtStake(Exec(db, ScanAll(db, run.cfg, map[], run.Reached()).stmts))
  {
    hide Sound; hide SizesTrue; hide OnlyEmptyAtStake; hide Apply; hide LastAllowed; hide ScanAll;
    var scan := ScanAll(db, run.cfg, map[], run.Reached());
    var to := Exec(db, scan.stmts);
    RunVisitsAllowed(ctx, run);
    ScanSound(ctx, db, run.cfg, map[], run.Reached());
    SoundAtEnd(ctx, db, scan.stmts);
    HalfSweepExactly(ctx, to);
    ExecConcat(db, scan.stmts, [SweepBlocks]);
    ExecFew(to, SweepBlocks, SweepBlocks, SweepBlocks);
    if OnlyEmptyAtStake(to) {
      OneStatementSound(ctx, to, SweepBlocks);
      SoundAlongConcat(ctx, db, scan.stmts, [SweepBlocks]);
    } else if SoundAlong(ctx, db, RunStmts(db, run)) {
      SoundAtEnd(ctx, db, RunStmts(db, run));
    }
  }
}
