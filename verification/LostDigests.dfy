/** What a lost row or block does to the recorded digests, exactly. */
module LostDigests {
  import opened Common
  import opened Tree
  import opened Store
  import opened Pass
  import opened Integrity
  import opened History
  import opened Losses
  import opened Damage

  ghost function BlockAt(db: Db, id: nat, no: nat): Option<Bytes> {
    if (id, no) in db.blocks then Some(db.blocks[(id, no)]) else None
  }

  lemma OneBlockLeft(db: Db, hash: Hasher, id: nat, chunk: Bytes, no: nat, lost: bool, k: nat)
    ensures var to := Exec(db, OneBlockStmtsWith(db, hash, id, no, chunk, lost));
            BlockAt(to, id, k) == if k > no then None else if k == no && !lost then Some(hash.block(Pad(chunk))) else BlockAt(db, id, k)
  {
    hide Pad;
    if lost {
      DeleteOnly(db, id, no);
    } else {
      OneBlockStates(db, hash, id, no, chunk);
    }
  }

  /** The block rows left: a lost INSERT leaves no row, except that the first may find one already there. */
  lemma {:induction false} BlocksLeft(db: Db, hash: Hasher, id: nat, chunks: seq<Bytes>, n: nat, lost: seq<bool>, k: nat)
    requires n < |chunks| && (n == 0 || forall j: nat :: j > n ==> BlockAt(db, id, j).None?)
    ensures BlockAt(Exec(db, BlockStmtsWith(db, hash, id, chunks, n, lost)), id, k) ==
              if k <= n then BlockAt(db, id, k)
              else if k > |chunks| then None
              else if !LostAt(lost, k - 1) then Some(hash.block(Pad(chunks[k - 1])))
              else if k == 1 then BlockAt(db, id, k)
              else None
    decreases |chunks| - n
  {
    hide OneBlockStmtsWith; hide Exec; hide BlockAt; hide Pad;
    var one := OneBlockStmtsWith(db, hash, id, n + 1, chunks[n], LostAt(lost, n));
    var mid := Exec(db, one);
    var rest := BlockStmtsWith(mid, hash, id, chunks, n + 1, lost);
    ExecConcat(db, one, rest);
    OneBlockLeft(db, hash, id, chunks[n], n + 1, LostAt(lost, n), k);
    if n + 1 < |chunks| {
      forall j: nat | j > n + 1
        ensures BlockAt(mid, id, j).None?
      {
        OneBlockLeft(db, hash, id, chunks[n], n + 1, LostAt(lost, n), j);
      }
      BlocksLeft(mid, hash, id, chunks, n + 1, lost, k);
    } else {
      ExecNone(mid);
    }
  }

  lemma ExecNone(db: Db)
    ensures Exec(db, []) == db
  {
  }

  /** The only INSERT that can be lost without a trace is that of a first block whose row is right already. */
  ghost predicate BlocksKept(db: Db, hash: Hasher, id: nat, chunks: seq<Bytes>, lost: seq<bool>) {
    forall n :: 0 <= n < |chunks| && LostAt(lost, n) ==> n == 0 && BlockAt(db, id, 1) == Some(hash.block(Pad(chunks[0])))
  }

  lemma BlocksAreAt(db: Db, hash: Hasher, id: nat, chunks: seq<Bytes>)
    requires BlockAt(db, id, 0).None?
    ensures BlocksAre(hash, db, id, chunks, |chunks|) <==>
              forall k: nat :: k >= 1 ==> BlockAt(db, id, k) == if k <= |chunks| then Some(hash.block(Pad(chunks[k - 1]))) else None
  {
    hide Pad;
    var right := forall k: nat :: k >= 1 ==> BlockAt(db, id, k) == if k <= |chunks| then Some(hash.block(Pad(chunks[k - 1]))) else None;
    if right {
      forall no: nat
        ensures (id, no) in db.blocks <==> 1 <= no <= |chunks|
        ensures 1 <= no <= |chunks| && (id, no) in db.blocks ==> db.blocks[(id, no)] == hash.block(Pad(chunks[no - 1]))
      {
        assert BlockAt(db, id, no) == BlockAt(db, id, no);
      }
    }
  }

  /** The block rows describe a file that delivers something if and only if no INSERT that mattered was lost. */
  lemma BlockLossExactly(db: Db, hash: Hasher, id: nat, chunks: seq<Bytes>, lost: seq<bool>)
    requires BlocksOwned(db) && chunks != []
    ensures BlocksAre(hash, Exec(db, BlockStmtsWith(db, hash, id, chunks, 0, lost)), id, chunks, |chunks|) <==>
              BlocksKept(db, hash, id, chunks, lost)
  {
    hide BlockStmtsWith; hide Exec; hide Pad;
    var to := Exec(db, BlockStmtsWith(db, hash, id, chunks, 0, lost));
    NoBlockZero(db, id);
    BlocksLeft(db, hash, id, chunks, 0, lost, 0);
    BlocksAreAt(to, hash, id, chunks);
    hide BlocksAre; hide BlockAt; hide BlocksOwned;
    forall k: nat
      ensures BlockAt(to, id, k) ==
                if k == 0 || k > |chunks| then None
                else if !LostAt(lost, k - 1) then Some(hash.block(Pad(chunks[k - 1])))
                else if k == 1 then BlockAt(db, id, k)
                else None
    {
      BlocksLeft(db, hash, id, chunks, 0, lost, k);
    }
    if !BlocksKept(db, hash, id, chunks, lost) {
      var n :| 0 <= n < |chunks| && LostAt(lost, n) && !(n == 0 && BlockAt(db, id, 1) == Some(hash.block(Pad(chunks[0]))));
      assert BlockAt(to, id, n + 1) != Some(hash.block(Pad(chunks[n])));
    }
  }

  lemma NoBlockZero(db: Db, id: nat)
    requires BlocksOwned(db)
    ensures BlockAt(db, id, 0).None?
  {
    var k := (id, 0 as nat);
    assert k in db.blocks ==> k.1 >= 1;
  }

  // ---------------------------------------------------------------- one file

  /** The stored columns already are those the file has now. */
  ghost predicate ColumnsMatch(row: Row, f: Node) {
    !row.isDir && row.size == NonZero(f.ver.size) && row.blockSize == Some(BLOCK_SIZE)
  }

  /** The row has the file's columns: written by this visit, or right already. */
  ghost predicate ColumnsKept(db: Db, cfg: Config, parent: nat, f: Node, fate: Fate) {
    var r := Find(db, parent, f.name);
    if r.None? then fate.Kept?
    else fate.Dropped? || OnlyTouched(db, cfg, NodeCols(parent, f), f.ver.mtime) ==> ColumnsMatch(db.entries[r.value], f)
  }

  lemma ColumnsAfterEntry(db: Db, cfg: Config, parent: nat, v: Visit, fate: Fate)
    requires Standing(db, cfg, parent, v) && v.node.File?
    ensures var c := NodeCols(parent, v.node);
            var mid, id := Exec(db, EntryStmtsWith(db, cfg, c, v.node.ver.mtime, fate)), EntryIdWith(db, cfg, c, fate);
            && mid.blocks == db.blocks && Structure(mid)
            && (ColumnsKept(db, cfg, parent, v.node, fate) <==> id in mid.entries && ColumnsMatch(mid.entries[id], v.node))
  {
    var c := NodeCols(parent, v.node);
    EntryIntegral(db, cfg, c, v.node.ver.mtime, fate, v.dir);
    if !fate.Dropped? || OnlyTouched(db, cfg, c, v.node.ver.mtime) {
      EntryEffect(db, cfg, c, v.node.ver.mtime);
    }
  }

  lemma FileLeft(db: Db, hash: Hasher, id: nat, f: Node, lost: seq<bool>)
    requires f.File? && f.io.ReadsToEnd? && BlocksOwned(db)
    ensures var to := Exec(db, FileStmtsWith(db, hash, id, f, lost));
            && to.entries.Keys == db.entries.Keys
            && (id in db.entries ==> to.entries[id] == FinishedRow(db.entries[id], f.ver.mtime, hash.file(PadAll(f.ver.chunks))))
            && to.blocks == Exec(db, BlockStmtsWith(db, hash, id, f.ver.chunks, 0, lost)).blocks
  {
    hide BlockStmtsWith; hide PadAll; hide BlocksOwned;
    var ss := BlockStmtsWith(db, hash, id, f.ver.chunks, 0, lost);
    var s := Stmt.Finish(id, f.ver.mtime, hash.file(PadAll(f.ver.chunks)));
    BlocksOnlyWith(db, hash, id, f.ver.chunks, 0, lost);
    assert ss[..|ss|] == ss;
    ExecConcat(db, ss, [s]);
    ExecFew(Exec(db, ss), s, s, s);
  }

  /**
   * After a visit that reads the file to its end, the tables record it if and only if its columns
   * were written or right already, and no INSERT of a block that mattered was lost.
   */
  lemma RecordedExactly(db: Db, cfg: Config, parent: nat, v: Visit, l: Loss)
    requires Standing(db, cfg, parent, v) && v.node.File? && v.node.io.ReadsToEnd? && Rehashed(db, cfg, parent, v.node)
    ensures var to, id := Exec(db, NodeStmtsWith(db, cfg, parent, v.node, l)), EntryIdWith(db, cfg, NodeCols(parent, v.node), l.entry);
            id in to.entries && Records(cfg.hash, to, id, v.node) <==>
              ColumnsKept(db, cfg, parent, v.node, l.entry) &&
              (v.node.ver.chunks != [] ==> BlocksKept(db, cfg.hash, id, v.node.ver.chunks, l.blocks))
  {
    hide EntryStmtsWith; hide EntryIdWith; hide FileStmtsWith; hide BlockStmtsWith; hide Exec; hide BlocksAre; hide BlocksKept;
    hide Structure; hide Denotes; hide PadAll; hide ColumnsKept;
    var c := NodeCols(parent, v.node);
    var entry := EntryStmtsWith(db, cfg, c, v.node.ver.mtime, l.entry);
    var mid, id := Exec(db, entry), EntryIdWith(db, cfg, c, l.entry);
    var to := Exec(mid, FileStmtsWith(mid, cfg.hash, id, v.node, l.blocks));
    ExecConcat(db, entry, FileStmtsWith(mid, cfg.hash, id, v.node, l.blocks));
    ColumnsAfterEntry(db, cfg, parent, v, l.entry);
    OwnsBlocks(mid);
    FileLeft(mid, cfg.hash, id, v.node, l.blocks);
    if v.node.ver.chunks != [] {
      BlockLossExactly(mid, cfg.hash, id, v.node.ver.chunks, l.blocks);
      KeptSame(db, mid, cfg.hash, id, v.node.ver.chunks, l.blocks);
      AreSame(to, Exec(mid, BlockStmtsWith(mid, cfg.hash, id, v.node.ver.chunks, 0, l.blocks)), cfg.hash, id, v.node.ver.chunks);
    }
  }

  lemma KeptSame(a: Db, b: Db, hash: Hasher, id: nat, chunks: seq<Bytes>, lost: seq<bool>)
    requires a.blocks == b.blocks
    ensures BlocksKept(a, hash, id, chunks, lost) <==> BlocksKept(b, hash, id, chunks, lost)
  {
    assert BlockAt(a, id, 1) == BlockAt(b, id, 1);
  }

  lemma AreSame(a: Db, b: Db, hash: Hasher, id: nat, chunks: seq<Bytes>)
    requires a.blocks == b.blocks
    ensures BlocksAre(hash, a, id, chunks, |chunks|) <==> BlocksAre(hash, b, id, chunks, |chunks|)
  {
  }

  // ---------------------------------------------------------------- truthful digests

  /** Among what the passes could see, the file had this time in this visit only. */
  ghost predicate OnlyHere(ctx: Ctx, v: Visit) {
    forall t, w :: SeenAt(ctx.log, t, w) && w.FullPath() == v.FullPath() && w.node.ver.mtime == v.node.ver.mtime ==> w == v
  }

  /** The state of a file that is being hashed again by a pass that did not lose its row. */
  ghost predicate Hashing(ctx: Ctx, db: Db, cfg: Config, parent: nat, v: Visit, l: Loss) {
    && ctx.regime == SafeTimes && Sound(ctx, db) && VisitAllowed(ctx, cfg, v) && v.node.accessible && v.node.File?
    && v.node.io.ReadsToEnd? && Standing(db, cfg, parent, v) && Rehashed(db, cfg, parent, v.node)
    && l.entry.Kept? && !OnlyTouched(db, cfg, NodeCols(parent, v.node), v.node.ver.mtime)
  }

  lemma EntryOpened(ctx: Ctx, db: Db, cfg: Config, parent: nat, v: Visit, l: Loss)
    requires Hashing(ctx, db, cfg, parent, v, l)
    ensures var c := NodeCols(parent, v.node);
            var entry := EntryStmtsWith(db, cfg, c, v.node.ver.mtime, l.entry);
            var mid, id := Exec(db, entry), EntryIdWith(db, cfg, c, l.entry);
            && SoundAlong(ctx, db, entry) && Sound(ctx, mid) && Opened(mid, id, v.node) && Marked(mid, id)
            && Denotes(mid, id, v.FullPath()) && mid.blocks == db.blocks
  {
    hide EntryStmts; hide Sound; hide Structure;
    var c := NodeCols(parent, v.node);
    NodeEntrySound(ctx, db, cfg, parent, v);
    SoundAtEnd(ctx, db, EntryStmts(db, cfg, c, v.node.ver.mtime));
    EntryEffect(db, cfg, c, v.node.ver.mtime);
    EntryPut(db, cfg, c, v.node.ver.mtime, v.dir);
  }

  lemma BlocksSoundWith(ctx: Ctx, db: Db, id: nat, chunks: seq<Bytes>, lost: seq<bool>)
    requires Sound(ctx, db) && id in db.entries && db.entries[id].digest.None?
    ensures var ss := BlockStmtsWith(db, ctx.hash, id, chunks, 0, lost);
            SoundAlong(ctx, db, ss) && Sound(ctx, Exec(db, ss)) && Exec(db, ss).entries == db.entries
  {
    hide BlockStmtsWith; hide Sound; hide BlocksOnly;
    var ss := BlockStmtsWith(db, ctx.hash, id, chunks, 0, lost);
    BlocksOnlyWith(db, ctx.hash, id, chunks, 0, lost);
    forall k | 0 <= k <= |ss|
      ensures Sound(ctx, Exec(db, ss[..k]))
    {
      BlocksSound(ctx, db, Exec(db, ss[..k]), id);
    }
    assert ss[..|ss|] == ss;
    SameEntries(db, Exec(db, ss), id);
  }

  /** With every block that mattered written, digests stay truthful throughout. */
  lemma KeptIsSound(ctx: Ctx, db: Db, cfg: Config, parent: nat, v: Visit, l: Loss)
    requires Hashing(ctx, db, cfg, parent, v, l)
    requires v.node.ver.chunks != [] ==>
               BlocksKept(db, cfg.hash, EntryIdWith(db, cfg, NodeCols(parent, v.node), l.entry), v.node.ver.chunks, l.blocks)
    ensures SoundAlong(ctx, db, NodeStmtsWith(db, cfg, parent, v.node, l))
  {
    hide EntryStmtsWith; hide EntryIdWith; hide BlockStmtsWith; hide Exec; hide BlocksAre; hide BlocksKept; hide Sound; hide SoundAlong; hide Denotes; hide PadAll;
    var c := NodeCols(parent, v.node);
    var chunks := v.node.ver.chunks;
    var entry := EntryStmtsWith(db, cfg, c, v.node.ver.mtime, l.entry);
    var mid, id := Exec(db, entry), EntryIdWith(db, cfg, c, l.entry);
    var write := BlockStmtsWith(mid, cfg.hash, id, chunks, 0, l.blocks);
    var fin := Stmt.Finish(id, v.node.ver.mtime, cfg.hash.file(PadAll(chunks)));
    EntryOpened(ctx, db, cfg, parent, v, l);
    BlocksSoundWith(ctx, mid, id, chunks, l.blocks);
    var full := Exec(mid, write);
    if chunks != [] {
      KeptSame(db, mid, cfg.hash, id, chunks, l.blocks);
      SoundOwns(ctx, mid);
      BlockLossExactly(mid, cfg.hash, id, chunks, l.blocks);
    }
    DenotesAgree(mid, full);
    FinishSound(ctx, full, id, v, cfg);
    OneStatementSound(ctx, full, fin);
    SoundAlongConcat(ctx, mid, write, [fin]);
    SoundAlongConcat(ctx, db, entry, write + [fin]);
  }

  lemma SoundOwns(ctx: Ctx, db: Db)
    requires Sound(ctx, db)
    ensures BlocksOwned(db) && 0 !in db.entries
  {
  }

  /** Once the visit has finished the row, only this visit can witness its digest. */
  lemma SoundIsRecorded(ctx: Ctx, db: Db, id: nat, v: Visit)
    requires ctx.regime == SafeTimes && Sound(ctx, db) && OnlyHere(ctx, v) && v.node.File?
    requires Denotes(db, id, v.FullPath()) && db.entries[id].digest.Some? && db.entries[id].mtime == Some(v.node.ver.mtime)
    ensures Records(ctx.hash, db, id, v.node)
  {
    hide BlocksAre; hide Structure; hide TimesSeen;
    assert Witnessed(ctx, db, id);
    var t: nat, w: Visit :| WitnessedBy(ctx, db, id, t, w);
    SoundOwns(ctx, db);
    DenotesOnePath(db, id, w.FullPath(), v.FullPath());
  }

  /**
   * A file hashed again, with any INSERTs of blocks lost: the invariant of crash consistency holds
   * at every boundary of the visit if and only if none of them mattered.
   */
  lemma BlockLossTruthExactly(ctx: Ctx, db: Db, cfg: Config, parent: nat, v: Visit, l: Loss)
    requires Hashing(ctx, db, cfg, parent, v, l) && OnlyHere(ctx, v)
    ensures SoundAlong(ctx, db, NodeStmtsWith(db, cfg, parent, v.node, l)) <==>
              (v.node.ver.chunks != [] ==>
                 BlocksKept(db, cfg.hash, EntryIdWith(db, cfg, NodeCols(parent, v.node), l.entry), v.node.ver.chunks, l.blocks))
  {
    var ss, id := NodeStmtsWith(db, cfg, parent, v.node, l), EntryIdWith(db, cfg, NodeCols(parent, v.node), l.entry);
    var kept := v.node.ver.chunks != [] ==> BlocksKept(db, cfg.hash, id, v.node.ver.chunks, l.blocks);
    if kept {
      KeptIsSound(ctx, db, cfg, parent, v, l);
    } else if SoundAlong(ctx, db, ss) {
      SoundAtEnd(ctx, db, ss);
      FinishedHere(ctx, db, cfg, parent, v, l);
      SoundIsRecorded(ctx, Exec(db, ss), id, v);
      RecordedExactly(db, cfg, parent, v, l);
    }
  }

  /** The visit has left its digest and its time in the row of its path. */
  lemma FinishedHere(ctx: Ctx, db: Db, cfg: Config, parent: nat, v: Visit, l: Loss)
    requires Hashing(ctx, db, cfg, parent, v, l)
    ensures var to, id := Exec(db, NodeStmtsWith(db, cfg, parent, v.node, l)), EntryIdWith(db, cfg, NodeCols(parent, v.node), l.entry);
            && Denotes(to, id, v.FullPath()) && to.entries[id].digest.Some? && to.entries[id].mtime == Some(v.node.ver.mtime)
  {
    hide EntryStmtsWith; hide EntryIdWith; hide FileStmtsWith; hide Exec; hide Sound; hide Denotes; hide PadAll; hide Structure;
    var c := NodeCols(parent, v.node);
    var entry := EntryStmtsWith(db, cfg, c, v.node.ver.mtime, l.entry);
    var mid, id := Exec(db, entry), EntryIdWith(db, cfg, c, l.entry);
    EntryOpened(ctx, db, cfg, parent, v, l);
    SoundOwns(ctx, mid);
    FileLeft(mid, cfg.hash, id, v.node, l.blocks);
    ExecConcat(db, entry, FileStmtsWith(mid, cfg.hash, id, v.node, l.blocks));
    FileKeepsKeys(mid, cfg.hash, id, v.node, l.blocks);
    DenotesKept(mid, Exec(mid, FileStmtsWith(mid, cfg.hash, id, v.node, l.blocks)), id, v.FullPath());
  }

  lemma FileKeepsKeys(db: Db, hash: Hasher, id: nat, f: Node, lost: seq<bool>)
    requires f.File? && f.io.ReadsToEnd? && BlocksOwned(db) && id in db.entries
    ensures KeepsKeys(db, Exec(db, FileStmtsWith(db, hash, id, f, lost)))
  {
    hide FileStmtsWith;
    FileLeft(db, hash, id, f, lost);
    forall i | i in db.entries && i != id
      ensures var to := Exec(db, FileStmtsWith(db, hash, id, f, lost)); i in to.entries && to.entries[i] == db.entries[i]
    {
      FileLeaves(db, hash, id, f, lost, i);
    }
  }

  // ---------------------------------------------------------------- the entry's own row

  const ENTRY_LOST: Loss := Loss(Kept, Dropped, [])

  /** Stored digests describe seen versions at every boundary of `ss`. */
  ghost predicate ConsistentAlong(ctx: Ctx, db: Db, ss: seq<Stmt>) {
    forall k :: 0 <= k <= |ss| ==> Consistent(ctx, Exec(db, ss[..k]))
  }

  lemma SoundIsConsistent(ctx: Ctx, db: Db, ss: seq<Stmt>)
    requires ctx.regime != AnyHistory && SoundAlong(ctx, db, ss)
    ensures ConsistentAlong(ctx, db, ss)
  {
    hide Consistent; hide Structure; hide TimesSeen; hide Exec;
  }

  lemma ConsistentAlongConcat(ctx: Ctx, db: Db, a: seq<Stmt>, b: seq<Stmt>)
    requires ConsistentAlong(ctx, db, a) && ConsistentAlong(ctx, Exec(db, a), b)
    ensures ConsistentAlong(ctx, db, a + b)
  {
    hide Consistent;
    forall k | 0 <= k <= |a + b|
      ensures Consistent(ctx, Exec(db, (a + b)[..k]))
    {
      SplitBoundary(db, a, b, k);
    }
  }

  /** Visiting the file in state `ver` with this fate of the entry's row keeps stored digests truthful. */
  ghost predicate StaysTruthful(ctx: Ctx, db: Db, cfg: Config, parent: nat, v: Visit, ver: Version, fate: Fate) {
    var w := WithVersion(v, ver);
    ConsistentAlong(ctx.(log := ctx.log + [[w]]), db, NodeStmtsWith(db, cfg, parent, w.node, Loss(Kept, fate, [])))
  }

  /** The entry is seen with a time new to its path. */
  ghost predicate NewTime(ctx: Ctx, db: Db, cfg: Config, parent: nat, v: Visit, mtime: nat) {
    && ctx.regime == SafeTimes && Sound(ctx, db) && cfg.hash == ctx.hash && Placed(v) && Standing(db, cfg, parent, v)
    && mtime != 0 && forall t, w :: SeenAt(ctx.log, t, w) && w.FullPath() == v.FullPath() ==> w.node.ver.mtime != mtime
  }

  lemma FoundIsPath(db: Db, cfg: Config, parent: nat, v: Visit)
    requires Standing(db, cfg, parent, v) && Find(db, parent, v.node.name).Some?
    ensures Denotes(db, Find(db, parent, v.node.name).value, v.FullPath())
  {
    assert v.FullPath()[..|v.dir|] == v.dir;
  }

  /** A new time is not the stored one, so the row is not merely touched and the file is hashed again. */
  lemma NotTouched(ctx: Ctx, db: Db, cfg: Config, parent: nat, v: Visit, mtime: nat)
    requires NewTime(ctx, db, cfg, parent, v, mtime)
    ensures Find(db, parent, v.node.name).Some? ==> ReadTime(db.entries[Find(db, parent, v.node.name).value]) != mtime
  {
    var f := Find(db, parent, v.node.name);
    if f.Some? && ReadTime(db.entries[f.value]) == mtime {
      FoundIsPath(db, cfg, parent, v);
      assert TimeSeen(ctx, db, f.value);
      var t: nat, w: Visit :| TimeSeenBy(ctx, db, f.value, t, w);
      DenotesOnePath(db, f.value, w.FullPath(), v.FullPath());
      assert false;
    }
  }

  /** Blocks written for rowid 0 belong to no row, so no stored digest is about them. */
  lemma NoRowStaysTruthful(ctx: Ctx, db: Db, ss: seq<Stmt>)
    requires Consistent(ctx, db) && 0 !in db.entries && BlocksOnlyAlong(db, ss, 0)
    ensures ConsistentAlong(ctx, db, ss)
  {
    hide Witnessed; hide Exec;
    forall k | 0 <= k <= |ss|
      ensures Consistent(ctx, Exec(db, ss[..k]))
    {
      OthersStayTruthful(ctx, db, Exec(db, ss[..k]));
    }
  }

  lemma OthersStayTruthful(ctx: Ctx, from: Db, to: Db)
    requires Consistent(ctx, from) && 0 !in from.entries && BlocksOnly(from, to, 0)
    ensures Consistent(ctx, to)
  {
    hide Witnessed; hide Abandoned; hide Denotes;
    DenotesAgree(from, to);
    forall id | id in to.entries && to.entries[id].digest.Some?
      ensures Witnessed(ctx, to, id)
    {
      WitnessKept(ctx, from, to, id);
    }
  }

  lemma FinishesNothing(ctx: Ctx, db: Db, s: Stmt)
    requires Consistent(ctx, db) && 0 !in db.entries && s.Finish? && s.id == 0
    ensures ConsistentAlong(ctx, db, [s])
  {
    hide Consistent;
    ExecFew(db, s, s, s);
    forall k | 0 <= k <= |[s]|
      ensures Consistent(ctx, Exec(db, [s][..k]))
    {
      assert [s][..k] == if k == 0 then [] else [s];
    }
  }

  /** Whatever a file without a row delivers, no stored digest is about it. */
  lemma NoRowFileTruthful(ctx: Ctx, db: Db, hash: Hasher, f: Node, lost: seq<bool>)
    requires f.File? && Consistent(ctx, db) && 0 !in db.entries
    ensures ConsistentAlong(ctx, db, FileStmtsWith(db, hash, 0, f, lost))
  {
    hide Consistent; hide BlockStmtsWith; hide Exec; hide PadAll;
    var write := BlockStmtsWith(db, hash, 0, Delivered(f), 0, lost);
    BlocksOnlyWith(db, hash, 0, Delivered(f), 0, lost);
    NoRowStaysTruthful(ctx, db, write);
    if f.io.ReadsToEnd? {
      var fin := Stmt.Finish(0, f.ver.mtime, hash.file(PadAll(f.ver.chunks)));
      assert write[..|write|] == write;
      SameEntries(db, Exec(db, write), 0);
      FinishesNothing(ctx, Exec(db, write), fin);
      ConsistentAlongConcat(ctx, db, write, [fin]);
    } else {
      assert write + [] == write;
    }
  }

  /** What a visit at a new time may assume. */
  lemma NewTimeAllowed(ctx: Ctx, db: Db, cfg: Config, parent: nat, v: Visit, ver: Version)
    requires NewTime(ctx, db, cfg, parent, v, ver.mtime)
    ensures var w := WithVersion(v, ver);
            var more := ctx.(log := ctx.log + [[w]]);
            && Sound(more, db) && VisitAllowed(more, cfg, w) && w.node.accessible && TimeSafe(db, cfg, parent, w.node)
            && Placed(w) && Standing(db, cfg, parent, w)
  {
    hide Sound;
    LogGrows(ctx, [WithVersion(v, ver)], db);
  }

  /** A new entry that is not written, or not found after its INSERT, spoils no digest. */
  lemma NewEntryLost(ctx: Ctx, db: Db, cfg: Config, parent: nat, v: Visit, ver: Version, fate: Fate)
    requires NewTime(ctx, db, cfg, parent, v, ver.mtime) && Find(db, parent, v.node.name).None? && !fate.Kept?
    ensures StaysTruthful(ctx, db, cfg, parent, v, ver, fate)
  {
    hide Exec; hide FileStmtsWith; hide Consistent; hide Sound; hide SoundAlong; hide ConsistentAlong; hide NewTime; hide Standing; hide VisitAllowed;
    var w := WithVersion(v, ver);
    var more := ctx.(log := ctx.log + [[w]]);
    NewTimeAllowed(ctx, db, cfg, parent, v, ver);
    var c := NodeCols(parent, w.node);
    var entry := EntryStmtsWith(db, cfg, c, ver.mtime, fate);
    var mid := Exec(db, entry);
    assert more.regime == SafeTimes by { AtSafeTimes(ctx, db, cfg, parent, v, ver.mtime); }
    if fate.Unseen? {
      assert Denotes(db, parent, w.dir) && Marked(db, parent) by { StandsThere(db, cfg, parent, w); }
      NodeEntrySound(more, db, cfg, parent, w);
    } else {
      NothingSound(more, db);
    }
    SoundIsConsistent(more, db, entry);
    SoundAtEnd(more, db, entry);
    SoundOwns(more, mid);
    TruthfulNow(more, mid);
    var file := FileStmtsWith(mid, cfg.hash, 0, w.node, []);
    NoRowFileTruthful(more, mid, cfg.hash, w.node, []);
    ConsistentAlongConcat(more, db, entry, file);
    HashedAnew(ctx, db, cfg, parent, v, ver.mtime);
    assert NodeStmtsWith(db, cfg, parent, w.node, Loss(Kept, fate, [])) == entry + file;
  }

  lemma AtSafeTimes(ctx: Ctx, db: Db, cfg: Config, parent: nat, v: Visit, mtime: nat)
    requires NewTime(ctx, db, cfg, parent, v, mtime)
    ensures ctx.regime == SafeTimes
  {
  }

  lemma StandsThere(db: Db, cfg: Config, parent: nat, v: Visit)
    requires Standing(db, cfg, parent, v)
    ensures Denotes(db, parent, v.dir) && Marked(db, parent)
  {
  }

  lemma TruthfulNow(ctx: Ctx, db: Db)
    requires ctx.regime != AnyHistory && Sound(ctx, db)
    ensures Consistent(ctx, db)
  {
  }

  lemma HashedAnew(ctx: Ctx, db: Db, cfg: Config, parent: nat, v: Visit, mtime: nat)
    requires NewTime(ctx, db, cfg, parent, v, mtime)
    ensures forall ver: Version :: ver.mtime == mtime ==> Rehashed(db, cfg, parent, WithVersion(v, ver).node)
  {
    NotTouched(ctx, db, cfg, parent, v, mtime);
  }

  /** A row that is kept, or that needs no second SELECT because it was there, is the row of a plain visit. */
  lemma OldEntryUnseen(ctx: Ctx, db: Db, cfg: Config, parent: nat, v: Visit, ver: Version, fate: Fate)
    requires NewTime(ctx, db, cfg, parent, v, ver.mtime)
    requires fate.Kept? || (fate.Unseen? && Find(db, parent, v.node.name).Some?)
    ensures StaysTruthful(ctx, db, cfg, parent, v, ver, fate)
  {
    hide Exec; hide Sound; hide SoundAlong; hide ConsistentAlong; hide NewTime; hide Standing; hide VisitAllowed; hide Denotes; hide EntryStmts;
    var w := WithVersion(v, ver);
    var more := ctx.(log := ctx.log + [[w]]);
    NewTimeAllowed(ctx, db, cfg, parent, v, ver);
    assert more.regime == SafeTimes by { AtSafeTimes(ctx, db, cfg, parent, v, ver.mtime); }
    assert Denotes(db, parent, w.dir) && Marked(db, parent) by { StandsThere(db, cfg, parent, w); }
    NodeSound(more, db, cfg, parent, w);
    SoundIsConsistent(more, db, NodeStmts(db, cfg, parent, w.node));
    var c := NodeCols(parent, w.node);
    BlocksClean(Exec(db, EntryStmts(db, cfg, c, ver.mtime)), cfg.hash, EntryId(db, cfg, c), Delivered(w.node), 0, []);
    assert NodeStmtsWith(db, cfg, parent, w.node, Loss(Kept, fate, [])) == NodeStmts(db, cfg, parent, w.node);
  }

  /** The row keeps the columns of the old version beside the time and the digest of the new one. */
  lemma OldEntryLost(ctx: Ctx, db: Db, cfg: Config, parent: nat, v: Visit, ver: Version)
    requires NewTime(ctx, db, cfg, parent, v, ver.mtime) && Find(db, parent, v.node.name).Some?
    requires db.entries[Find(db, parent, v.node.name).value].size != NonZero(ver.size)
    ensures !StaysTruthful(ctx, db, cfg, parent, v, ver, Dropped)
  {
    hide Exec; hide FileStmtsWith; hide Sound; hide Structure; hide Denotes; hide PadAll;
    var w := WithVersion(v, ver);
    var more := ctx.(log := ctx.log + [[w]]);
    var id := Find(db, parent, v.node.name).value;
    NotTouched(ctx, db, cfg, parent, v, ver.mtime);
    FoundIsPath(db, cfg, parent, v);
    ExecNone(db);
    SoundOwns(ctx, db);
    var file := FileStmtsWith(db, cfg.hash, id, w.node, []);
    assert NodeStmtsWith(db, cfg, parent, w.node, ENTRY_LOST) == [] + file == file;
    FileLeft(db, cfg.hash, id, w.node, []);
    FileKeepsKeys(db, cfg.hash, id, w.node, []);
    DenotesKept(db, Exec(db, file), id, v.FullPath());
    if StaysTruthful(ctx, db, cfg, parent, v, ver, Dropped) {
      assert file[..|file|] == file;
      assert Witnessed(more, Exec(db, file), id);
      WrongSizeUnwitnessed(ctx, w, Exec(db, file), id);
    }
  }

  /**
   * An entry is visited at a time new to its path: stored digests stay truthful at every boundary,
   * whatever the file holds and whatever becomes of its row, except if an old row is dropped.
   */
  lemma EntryLossTruthExactly(ctx: Ctx, db: Db, cfg: Config, parent: nat, v: Visit, mtime: nat, fate: Fate)
    requires NewTime(ctx, db, cfg, parent, v, mtime)
    ensures (forall ver: Version :: ver.mtime == mtime && Deliverable(ver) ==> StaysTruthful(ctx, db, cfg, parent, v, ver, fate)) <==>
              !(fate.Dropped? && Find(db, parent, v.node.name).Some?)
  {
    hide NewTime; hide StaysTruthful;
    var f := Find(db, parent, v.node.name);
    if fate.Dropped? && f.Some? {
      var ver := if db.entries[f.value].size.None? then Version(mtime, 1, [[0]]) else Version(mtime, 0, []);
      assert Length([[0]]) == 1 + Length([]);
      OldEntryLost(ctx, db, cfg, parent, v, ver);
    } else {
      forall ver: Version | ver.mtime == mtime && Deliverable(ver)
        ensures StaysTruthful(ctx, db, cfg, parent, v, ver, fate)
      {
        if f.None? && !fate.Kept? {
          NewEntryLost(ctx, db, cfg, parent, v, ver, fate);
        } else {
          OldEntryUnseen(ctx, db, cfg, parent, v, ver, fate);
        }
      }
    }
  }
}
