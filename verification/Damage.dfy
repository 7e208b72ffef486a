/** What a lost row does to the integrity of the tables and to the `parents` cache, exactly. */
module Damage {
  import opened Common
  import opened Tree
  import opened Store
  import opened Pass
  import opened Integrity
  import opened Losses

  const INTEGRITY: Regime := AnyHistory

  /** Integrity at every boundary of `ss`. */
  ghost predicate Integral(hash: Hasher, db: Db, ss: seq<Stmt>) {
    SoundAlong(Ctx(INTEGRITY, hash, []), db, ss)
  }

  lemma IntegralConcat(hash: Hasher, db: Db, a: seq<Stmt>, b: seq<Stmt>)
    requires Integral(hash, db, a)
    ensures Integral(hash, db, a + b) <==> Integral(hash, Exec(db, a), b)
  {
    if Integral(hash, Exec(db, a), b) {
      SoundAlongConcat(Ctx(INTEGRITY, hash, []), db, a, b);
    }
    if Integral(hash, db, a + b) {
      forall k | 0 <= k <= |b|
        ensures Sound(Ctx(INTEGRITY, hash, []), Exec(Exec(db, a), b[..k]))
      {
        assert (a + b)[..|a| + k] == a + b[..k];
        ExecConcat(db, a, b[..k]);
      }
    }
  }

  lemma IntegralNone(hash: Hasher, db: Db)
    requires Structure(db)
    ensures Integral(hash, db, []) && Exec(db, []) == db
  {
    NothingSound(Ctx(INTEGRITY, hash, []), db);
  }

  lemma IntegralEnd(hash: Hasher, db: Db, ss: seq<Stmt>)
    requires Integral(hash, db, ss)
    ensures Structure(Exec(db, ss)) && Structure(db)
  {
    SoundAtEnd(Ctx(INTEGRITY, hash, []), db, ss);
    assert ss[..0] == [] && Exec(db, ss[..0]) == db;
  }

  // ---------------------------------------------------------------- one row

  /** The row ends up marked and known: written and found, or, if dropped, there and touched or marked already. */
  ghost predicate RowKeptMarked(db: Db, cfg: Config, c: Cols, mtime: nat, fate: Fate) {
    match fate
    case Kept => true
    case Dropped =>
      || OnlyTouched(db, cfg, c, mtime)
      || (Find(db, c.parent, c.name).Some? && Marked(db, Find(db, c.parent, c.name).value))
    case Unseen => Find(db, c.parent, c.name).Some?
  }

  /** The parent named in the columns is where the path goes on, or there is none. */
  ghost predicate Below(db: Db, c: Cols, dir: Path) {
    if dir == [] then c.parent == 0 && c.isDir && c.fileSize == 0 && c.blockSize == 0
    else Denotes(db, c.parent, dir) && Marked(db, c.parent)
  }

  lemma FoundDenotes(db: Db, c: Cols, dir: Path)
    requires 0 !in db.entries && Below(db, c, dir) && Find(db, c.parent, c.name).Some?
    ensures Denotes(db, Find(db, c.parent, c.name).value, dir + [c.name])
  {
    assert (dir + [c.name])[..|dir|] == dir;
  }

  /**
   * `update_entry` returns the rowid of a marked row that spells the path if and only if its row is
   * written and found, or was there before and gets, or has, its mark.
   */
  lemma EntryLossExactly(db: Db, cfg: Config, c: Cols, mtime: nat, fate: Fate, dir: Path)
    requires Structure(db) && FreshIds(cfg.rowids) && Below(db, c, dir)
    ensures var to, id := Exec(db, EntryStmtsWith(db, cfg, c, mtime, fate)), EntryIdWith(db, cfg, c, fate);
            Denotes(to, id, dir + [c.name]) && Marked(to, id) <==> RowKeptMarked(db, cfg, c, mtime, fate)
  {
    if fate.Dropped? && !OnlyTouched(db, cfg, c, mtime) {
      if Find(db, c.parent, c.name).Some? {
        FoundDenotes(db, c, dir);
      }
    } else {
      EntryEffect(db, cfg, c, mtime);
      EntryPut(db, cfg, c, mtime, dir);
    }
  }

  /** A row that is written keeps integrity at every boundary, and nothing is forgotten. */
  lemma EntryIntegral(db: Db, cfg: Config, c: Cols, mtime: nat, fate: Fate, dir: Path)
    requires Structure(db) && FreshIds(cfg.rowids) && Below(db, c, dir)
    ensures var ss := EntryStmtsWith(db, cfg, c, mtime, fate);
            Integral(cfg.hash, db, ss) && Structure(Exec(db, ss)) && Grows(db, Exec(db, ss)) && Exec(db, ss).blocks == db.blocks
  {
    var ss := EntryStmtsWith(db, cfg, c, mtime, fate);
    if ss == [] {
      IntegralNone(cfg.hash, db);
      GrowsSelf(db);
    } else {
      hide EntryStmts; hide EntryRow; hide EntryId; hide Structure; hide Denotes;
      var ctx := Ctx(INTEGRITY, cfg.hash, []);
      EntryEffect(db, cfg, c, mtime);
      EntryPut(db, cfg, c, mtime, dir);
      PutKeepsStructure(db, EntryId(db, cfg, c), EntryRow(db, cfg, c, mtime));
      forall k | 0 <= k <= |ss|
        ensures Sound(ctx, Exec(db, ss[..k]))
      {
        assert Exec(db, ss[..k]) in {db, Exec(db, ss)};
      }
    }
  }

  // ---------------------------------------------------------------- the blocks

  lemma DeleteOnly(db: Db, id: nat, no: nat)
    ensures BlocksOnlyAlong(db, [BlockDeleteAbove(id, no)], id)
    ensures Exec(db, [BlockDeleteAbove(id, no)]) == Apply(db, BlockDeleteAbove(id, no))
  {
    var s := BlockDeleteAbove(id, no);
    ExecFew(db, s, s, s);
    forall k | 0 <= k <= |[s]|
      ensures BlocksOnly(db, Exec(db, [s][..k]), id)
    {
      assert [s][..k] == if k == 0 then [] else [s];
    }
  }

  lemma OneBlockOnly(db: Db, hash: Hasher, id: nat, no: nat, chunk: Bytes, lost: bool)
    requires no >= 1
    ensures BlocksOnlyAlong(db, OneBlockStmtsWith(db, hash, id, no, chunk, lost), id)
  {
    if lost {
      DeleteOnly(db, id, no);
    } else {
      OneBlockStates(db, hash, id, no, chunk);
    }
  }

  /** Whatever is lost, writing the blocks of an entry touches no others. */
  lemma {:induction false} BlocksOnlyWith(db: Db, hash: Hasher, id: nat, chunks: seq<Bytes>, n: nat, lost: seq<bool>)
    requires n <= |chunks|
    ensures BlocksOnlyAlong(db, BlockStmtsWith(db, hash, id, chunks, n, lost), id)
    decreases |chunks| - n
  {
    if n == |chunks| {
      NothingAlong(db, id);
    } else {
      hide BlocksOnlyAlong; hide OneBlockStmtsWith; hide Exec;
      var one := OneBlockStmtsWith(db, hash, id, n + 1, chunks[n], LostAt(lost, n));
      OneBlockOnly(db, hash, id, n + 1, chunks[n], LostAt(lost, n));
      BlocksOnlyWith(Exec(db, one), hash, id, chunks, n + 1, lost);
      BlocksOnlyAlongConcat(db, one, BlockStmtsWith(Exec(db, one), hash, id, chunks, n + 1, lost), id);
    }
  }

  lemma BlocksIntegral(db: Db, hash: Hasher, id: nat, chunks: seq<Bytes>, lost: seq<bool>)
    requires Structure(db) && id in db.entries
    ensures var ss := BlockStmtsWith(db, hash, id, chunks, 0, lost);
            Integral(hash, db, ss) && Structure(Exec(db, ss)) && Exec(db, ss).entries == db.entries
  {
    hide Structure; hide BlockStmtsWith; hide BlocksOnly;
    var ss := BlockStmtsWith(db, hash, id, chunks, 0, lost);
    BlocksOnlyWith(db, hash, id, chunks, 0, lost);
    forall k | 0 <= k <= |ss|
      ensures Sound(Ctx(INTEGRITY, hash, []), Exec(db, ss[..k]))
    {
      BlocksKeepStructure(db, Exec(db, ss[..k]), id);
    }
    IntegralEnd(hash, db, ss);
    assert ss[..|ss|] == ss;
    SameEntries(db, Exec(db, ss), id);
  }

  lemma SameEntries(from: Db, to: Db, id: nat)
    requires BlocksOnly(from, to, id)
    ensures to.entries == from.entries
  {
  }

  /** Some block of the file has its INSERT carried out. */
  predicate SomeWritten(chunks: seq<Bytes>, n: nat, lost: seq<bool>) {
    exists k :: n <= k < |chunks| && !LostAt(lost, k)
  }

  /** Blocks of an entry without a row: integral exactly if every INSERT of a block is lost as well. */
  lemma {:induction false} NoRowBlocks(db: Db, hash: Hasher, chunks: seq<Bytes>, n: nat, lost: seq<bool>)
    requires Structure(db) && n <= |chunks|
    ensures Integral(hash, db, BlockStmtsWith(db, hash, 0, chunks, n, lost)) <==> !SomeWritten(chunks, n, lost)
    ensures !SomeWritten(chunks, n, lost) ==> Exec(db, BlockStmtsWith(db, hash, 0, chunks, n, lost)) == db
    decreases |chunks| - n
  {
    var ss := BlockStmtsWith(db, hash, 0, chunks, n, lost);
    if n == |chunks| {
      IntegralNone(hash, db);
    } else if LostAt(lost, n) {
      var del := Stmt.BlockDeleteAbove(0, n + 1);
      assert OneBlockStmtsWith(db, hash, 0, n + 1, chunks[n], true) == [del];
      NothingToDelete(hash, db, n + 1);
      NoRowBlocks(db, hash, chunks, n + 1, lost);
      var rest := BlockStmtsWith(db, hash, 0, chunks, n + 1, lost);
      assert ss == [del] + rest;
      IntegralConcat(hash, db, [del], rest);
      ExecConcat(db, [del], rest);
      assert SomeWritten(chunks, n, lost) <==> SomeWritten(chunks, n + 1, lost);
    } else {
      assert SomeWritten(chunks, n, lost);
      var ins := Stmt.BlockInsert(0, n + 1, hash.block(Pad(chunks[n])));
      assert ss[..1] == [ins];
      ExecFew(db, ins, ins, ins);
      Ownerless(db, n + 1, hash.block(Pad(chunks[n])));
      assert !Structure(Exec(db, ss[..1]));
    }
  }

  lemma NothingToDelete(hash: Hasher, db: Db, no: nat)
    requires Structure(db)
    ensures Exec(db, [BlockDeleteAbove(0, no)]) == db && Integral(hash, db, [BlockDeleteAbove(0, no)])
  {
    var del := Stmt.BlockDeleteAbove(0, no);
    ExecFew(db, del, del, del);
    assert Apply(db, del).blocks == db.blocks;
    OneStatementSound(Ctx(INTEGRITY, hash, []), db, del);
  }

  lemma Ownerless(db: Db, no: nat, digest: Bytes)
    requires Structure(db)
    ensures !Structure(Apply(db, BlockInsert(0, no, digest)))
  {
    assert (0, no) in Apply(db, BlockInsert(0, no, digest)).blocks;
  }

  // ---------------------------------------------------------------- one entry

  lemma FinishAllowed(db: Db, id: nat, mtime: nat, digest: Bytes)
    requires 0 !in db.entries && id in db.entries && db.entries[id].parent != 0 && Marked(db, db.entries[id].parent)
    ensures Apply(db, Finish(id, mtime, digest)) == Put(db, id, FinishedRow(db.entries[id], mtime, digest))
    ensures PutAllowed(db, id, FinishedRow(db.entries[id], mtime, digest))
  {
  }

  lemma NoRowZero(db: Db)
    requires Structure(db)
    ensures 0 !in db.entries
  {
  }

  lemma FinishIntegral(hash: Hasher, db: Db, id: nat, mtime: nat, digest: Bytes)
    requires Structure(db) && id in db.entries && db.entries[id].parent != 0 && Marked(db, db.entries[id].parent)
    ensures Integral(hash, db, [Finish(id, mtime, digest)])
    ensures Structure(Exec(db, [Finish(id, mtime, digest)])) && Grows(db, Exec(db, [Finish(id, mtime, digest)]))
  {
    hide Structure; hide Apply; hide PutAllowed; hide Exec; hide SoundAlong;
    var s := Stmt.Finish(id, mtime, digest);
    var row := FinishedRow(db.entries[id], mtime, digest);
    NoRowZero(db);
    FinishAllowed(db, id, mtime, digest);
    ExecFew(db, s, s, s);
    PutKeepsStructure(db, id, row);
    OneStatementSound(Ctx(INTEGRITY, hash, []), db, s);
  }

  lemma FinishNothing(hash: Hasher, db: Db, mtime: nat, digest: Bytes)
    requires Structure(db)
    ensures Integral(hash, db, [Finish(0, mtime, digest)]) && Exec(db, [Finish(0, mtime, digest)]) == db
  {
    var s := Stmt.Finish(0, mtime, digest);
    ExecFew(db, s, s, s);
    OneStatementSound(Ctx(INTEGRITY, hash, []), db, s);
  }

  /** The statements of a file whose row exists keep integrity, whatever is lost of its blocks. */
  lemma FileIntegral(db: Db, hash: Hasher, id: nat, f: Node, lost: seq<bool>)
    requires Structure(db) && f.File? && id in db.entries && db.entries[id].parent != 0 && Marked(db, db.entries[id].parent)
    ensures var ss := FileStmtsWith(db, hash, id, f, lost);
            Integral(hash, db, ss) && Structure(Exec(db, ss)) && Grows(db, Exec(db, ss))
  {
    hide BlockStmtsWith; hide Structure; hide Integral; hide Exec;
    var ss := BlockStmtsWith(db, hash, id, Delivered(f), 0, lost);
    var mid := Exec(db, ss);
    BlocksIntegral(db, hash, id, Delivered(f), lost);
    if f.io.ReadsToEnd? {
      var digest := hash.file(PadAll(f.ver.chunks));
      FinishIntegral(hash, mid, id, f.ver.mtime, digest);
      IntegralConcat(hash, db, ss, [Finish(id, f.ver.mtime, digest)]);
      ExecConcat(db, ss, [Finish(id, f.ver.mtime, digest)]);
    } else {
      assert ss + [] == ss;
    }
  }

  /** The statements of a file without a row: integral exactly if no block is written. */
  lemma NoRowFile(db: Db, hash: Hasher, f: Node, lost: seq<bool>)
    requires Structure(db) && f.File?
    ensures Integral(hash, db, FileStmtsWith(db, hash, 0, f, lost)) <==> !SomeWritten(Delivered(f), 0, lost)
    ensures !SomeWritten(Delivered(f), 0, lost) ==> Exec(db, FileStmtsWith(db, hash, 0, f, lost)) == db
  {
    hide BlockStmtsWith; hide Structure; hide Exec; hide SomeWritten;
    var ss := BlockStmtsWith(db, hash, 0, Delivered(f), 0, lost);
    var digest := hash.file(PadAll(f.ver.chunks));
    NoRowBlocks(db, hash, Delivered(f), 0, lost);
    if f.io.ReadsToEnd? {
      var fin := [Stmt.Finish(0, f.ver.mtime, digest)];
      if !SomeWritten(Delivered(f), 0, lost) {
        FinishNothing(hash, db, f.ver.mtime, digest);
        IntegralConcat(hash, db, ss, fin);
        ExecConcat(db, ss, fin);
      } else if Integral(hash, db, ss + fin) {
        IntegralPrefix(hash, db, ss, fin);
      }
    } else {
      assert ss + [] == ss;
    }
  }

  lemma IntegralPrefix(hash: Hasher, db: Db, a: seq<Stmt>, b: seq<Stmt>)
    requires Integral(hash, db, a + b)
    ensures Integral(hash, db, a)
  {
    forall k | 0 <= k <= |a|
      ensures Sound(Ctx(INTEGRITY, hash, []), Exec(db, a[..k]))
    {
      assert (a + b)[..k] == a[..k];
    }
  }

  /** What losing the entry's row leaves undamaged: a directory whose row is known anyway, a file without blocks. */
  ghost predicate NodeHarmless(db: Db, cfg: Config, parent: nat, v: Visit, l: Loss, cache: Cache) {
    var c := NodeCols(parent, v.node);
    if v.node.Dir? then v.FullPath() in cache || RowKeptMarked(db, cfg, c, v.node.ver.mtime, l.entry)
    else
      !l.entry.Kept? && Find(db, parent, v.node.name).None? && Rehashed(db, cfg, parent, v.node) ==> !SomeWritten(Delivered(v.node), 0, l.blocks)
  }

  ghost predicate Standing(db: Db, cfg: Config, parent: nat, v: Visit) {
    Structure(db) && FreshIds(cfg.rowids) && v.dir != [] && Denotes(db, parent, v.dir) && Marked(db, parent)
  }

  /** The row of the entry, if it has one, is there after `update_entry`, below its parent. */
  lemma EntryThere(db: Db, cfg: Config, parent: nat, v: Visit, fate: Fate)
    requires Standing(db, cfg, parent, v) && (fate.Kept? || Find(db, parent, v.node.name).Some?)
    ensures var c := NodeCols(parent, v.node);
            var mid, id := Exec(db, EntryStmtsWith(db, cfg, c, v.node.ver.mtime, fate)), EntryIdWith(db, cfg, c, fate);
            id in mid.entries && mid.entries[id].parent == parent && parent != 0 && Marked(mid, parent)
  {
    var c := NodeCols(parent, v.node);
    EntryIntegral(db, cfg, c, v.node.ver.mtime, fate, v.dir);
    if !fate.Dropped? || OnlyTouched(db, cfg, c, v.node.ver.mtime) {
      EntryEffect(db, cfg, c, v.node.ver.mtime);
    }
  }

  lemma FileDamage(db: Db, cfg: Config, parent: nat, v: Visit, l: Loss, cache: Cache)
    requires Standing(db, cfg, parent, v) && v.node.File?
    ensures var ss := NodeStmtsWith(db, cfg, parent, v.node, l);
            && (Integral(cfg.hash, db, ss) <==> NodeHarmless(db, cfg, parent, v, l, cache))
            && (NodeHarmless(db, cfg, parent, v, l, cache) ==> Structure(Exec(db, ss)) && Grows(db, Exec(db, ss)))
  {
    hide FileStmtsWith; hide SomeWritten; hide Rehashed; hide Structure; hide Grows; hide Integral; hide Exec; hide EntryStmts; hide EntryId; hide Denotes;
    var c := NodeCols(parent, v.node);
    var entry := EntryStmtsWith(db, cfg, c, v.node.ver.mtime, l.entry);
    var mid, id := Exec(db, entry), EntryIdWith(db, cfg, c, l.entry);
    EntryIntegral(db, cfg, c, v.node.ver.mtime, l.entry, v.dir);
    if !Rehashed(db, cfg, parent, v.node) {
      assert entry + [] == entry;
    } else {
      var write := FileStmtsWith(mid, cfg.hash, id, v.node, l.blocks);
      IntegralConcat(cfg.hash, db, entry, write);
      ExecConcat(db, entry, write);
      if !l.entry.Kept? && Find(db, parent, v.node.name).None? {
        NoRowFile(mid, cfg.hash, v.node, l.blocks);
      } else {
        EntryThere(db, cfg, parent, v, l.entry);
        FileIntegral(mid, cfg.hash, id, v.node, l.blocks);
        GrowsTrans(db, mid, Exec(mid, write));
      }
    }
  }

  lemma DirDamage(db: Db, cfg: Config, parent: nat, v: Visit, l: Loss)
    requires Standing(db, cfg, parent, v) && v.node.Dir?
    ensures var ss := NodeStmtsWith(db, cfg, parent, v.node, l);
            var to, id := Exec(db, ss), EntryIdWith(db, cfg, NodeCols(parent, v.node), l.entry);
            && Integral(cfg.hash, db, ss) && Structure(to) && Grows(db, to)
            && (Denotes(to, id, v.FullPath()) && Marked(to, id) <==>
                  RowKeptMarked(db, cfg, NodeCols(parent, v.node), v.node.ver.mtime, l.entry))
  {
    hide Structure; hide Grows; hide Integral; hide Exec; hide EntryStmtsWith; hide EntryIdWith; hide Denotes; hide RowKeptMarked;
    var c := NodeCols(parent, v.node);
    var entry := EntryStmtsWith(db, cfg, c, v.node.ver.mtime, l.entry);
    assert entry + [] == entry;
    EntryIntegral(db, cfg, c, v.node.ver.mtime, l.entry, v.dir);
    EntryLossExactly(db, cfg, c, v.node.ver.mtime, l.entry, v.dir);
  }

  // ---------------------------------------------------------------- one callback

  ghost predicate ParentKept(db: Db, cfg: Config, cache: Cache, v: Visit, l: Loss) {
    v.dir in cache || RowKeptMarked(db, cfg, RootCols(v.dir), 0, l.root)
  }

  /** What is lost in a callback does no damage. */
  ghost predicate Harmless(db: Db, cfg: Config, cache: Cache, v: Visit, l: Loss) {
    Processed(cache, v) ==>
      var mid, parent := Exec(db, ParentStmtsWith(db, cfg, cache, v, l)), ParentIdWith(db, cfg, cache, v, l);
      ParentKept(db, cfg, cache, v, l) && NodeHarmless(mid, cfg, parent, v, l, Emplace(cache, v.dir, parent))
  }

  /** Integrity at every boundary of a callback, and a cache that agrees with the tables after it. */
  ghost predicate Intact(db: Db, cfg: Config, cache: Cache, v: Visit, l: Loss) {
    var m := ManipulateWith(db, cfg, cache, v, l);
    Integral(cfg.hash, db, m.stmts) && CacheOk(Exec(db, m.stmts), m.cache)
  }

  lemma ParentDamage(db: Db, cfg: Config, cache: Cache, v: Visit, l: Loss)
    requires Structure(db) && FreshIds(cfg.rowids) && Placed(v) && CacheOk(db, cache) && Processed(cache, v)
    ensures var ss := ParentStmtsWith(db, cfg, cache, v, l);
            var mid, parent := Exec(db, ss), ParentIdWith(db, cfg, cache, v, l);
            && Integral(cfg.hash, db, ss) && Structure(mid) && Grows(db, mid)
            && (ParentKept(db, cfg, cache, v, l) ==>
                  Denotes(mid, parent, v.dir) && Marked(mid, parent) && CacheOk(mid, Emplace(cache, v.dir, parent)))
  {
    if v.dir in cache {
      IntegralNone(cfg.hash, db);
      GrowsSelf(db);
    } else {
      hide Structure; hide Grows; hide Integral; hide Exec; hide EntryStmtsWith; hide EntryIdWith; hide Denotes; hide RowKeptMarked; hide CacheOk;
      var c := RootCols(v.dir);
      EntryIntegral(db, cfg, c, 0, l.root, []);
      EntryLossExactly(db, cfg, c, 0, l.root, []);
      assert [] + [c.name] == v.dir;
      var mid, parent := Exec(db, EntryStmtsWith(db, cfg, c, 0, l.root)), EntryIdWith(db, cfg, c, l.root);
      CacheKept(db, mid, cache);
      if ParentKept(db, cfg, cache, v, l) {
        CacheEmplace(mid, cache, v.dir, parent);
      }
    }
  }

  lemma CallbackSplit(db: Db, cfg: Config, cache: Cache, v: Visit, l: Loss)
    requires Processed(cache, v)
    ensures var s := ParentStmtsWith(db, cfg, cache, v, l);
            var mid, parent := Exec(db, s), ParentIdWith(db, cfg, cache, v, l);
            var m := ManipulateWith(db, cfg, cache, v, l);
            && m.stmts == s + NodeStmtsWith(mid, cfg, parent, v.node, l) && !m.threw
            && Exec(db, m.stmts) == Exec(mid, NodeStmtsWith(mid, cfg, parent, v.node, l))
            && m.cache == (if v.node.Dir? then
                             Emplace(Emplace(cache, v.dir, parent), v.FullPath(), EntryIdWith(mid, cfg, NodeCols(parent, v.node), l.entry))
                           else Emplace(cache, v.dir, parent))
  {
    hide ParentStmtsWith; hide NodeStmtsWith; hide ParentIdWith; hide EntryIdWith; hide Exec;
    var s := ParentStmtsWith(db, cfg, cache, v, l);
    ExecConcat(db, s, NodeStmtsWith(Exec(db, s), cfg, ParentIdWith(db, cfg, cache, v, l), v.node, l));
  }

  /** Below a parent that stands, the callback stays intact exactly if the entry's part is harmless. */
  lemma NodeDamage(db: Db, cfg: Config, parent: nat, v: Visit, l: Loss, cache: Cache)
    requires Standing(db, cfg, parent, v) && CacheOk(db, cache)
    ensures var ss := NodeStmtsWith(db, cfg, parent, v.node, l);
            var to, id := Exec(db, ss), EntryIdWith(db, cfg, NodeCols(parent, v.node), l.entry);
            Integral(cfg.hash, db, ss) && CacheOk(to, if v.node.Dir? then Emplace(cache, v.FullPath(), id) else cache) <==>
              NodeHarmless(db, cfg, parent, v, l, cache)
  {
    hide NodeStmtsWith; hide EntryIdWith; hide Integral; hide Exec; hide Structure; hide Denotes; hide Grows; hide RowKeptMarked;
    var to, id := Exec(db, NodeStmtsWith(db, cfg, parent, v.node, l)), EntryIdWith(db, cfg, NodeCols(parent, v.node), l.entry);
    if v.node.File? {
      FileDamage(db, cfg, parent, v, l, cache);
      if NodeHarmless(db, cfg, parent, v, l, cache) {
        CacheKept(db, to, cache);
      }
    } else {
      DirDamage(db, cfg, parent, v, l);
      CacheKept(db, to, cache);
      if v.FullPath() !in cache {
        EmplacedOk(to, cache, v.FullPath(), id);
      }
    }
  }

  lemma EmplacedOk(db: Db, cache: Cache, p: Path, id: nat)
    requires CacheOk(db, cache) && p !in cache
    ensures CacheOk(db, Emplace(cache, p, id)) <==> Denotes(db, id, p) && Marked(db, id)
  {
    assert Emplace(cache, p, id)[p] == id;
  }

  /** The statements of an entry change no row but its own. */
  lemma NodeLeaves(db: Db, cfg: Config, parent: nat, n: Node, l: Loss, i: nat)
    requires FreshIds(cfg.rowids) && i in db.entries && i != EntryIdWith(db, cfg, NodeCols(parent, n), l.entry)
    ensures var to := Exec(db, NodeStmtsWith(db, cfg, parent, n, l));
            i in to.entries && to.entries[i] == db.entries[i]
  {
    hide BlockStmtsWith; hide EntryStmts; hide EntryRow; hide Exec;
    var c := NodeCols(parent, n);
    var entry := EntryStmtsWith(db, cfg, c, n.ver.mtime, l.entry);
    var mid, id := Exec(db, entry), EntryIdWith(db, cfg, c, l.entry);
    EntryLeaves(db, cfg, c, n.ver.mtime, l.entry, i);
    if Rehashed(db, cfg, parent, n) {
      FileLeaves(mid, cfg.hash, id, n, l.blocks, i);
      ExecConcat(db, entry, FileStmtsWith(mid, cfg.hash, id, n, l.blocks));
    } else {
      assert entry + [] == entry;
    }
  }

  lemma EntryLeaves(db: Db, cfg: Config, c: Cols, mtime: nat, fate: Fate, i: nat)
    requires FreshIds(cfg.rowids) && i in db.entries && i != EntryIdWith(db, cfg, c, fate)
    ensures var to := Exec(db, EntryStmtsWith(db, cfg, c, mtime, fate));
            i in to.entries && to.entries[i] == db.entries[i]
  {
    EntryEffect(db, cfg, c, mtime);
  }

  lemma FileLeaves(db: Db, hash: Hasher, id: nat, f: Node, lost: seq<bool>, i: nat)
    requires f.File? && i in db.entries && i != id
    ensures var to := Exec(db, FileStmtsWith(db, hash, id, f, lost));
            i in to.entries && to.entries[i] == db.entries[i]
  {
    hide BlockStmtsWith;
    var ss := BlockStmtsWith(db, hash, id, Delivered(f), 0, lost);
    BlocksOnlyWith(db, hash, id, Delivered(f), 0, lost);
    assert ss[..|ss|] == ss;
    if f.io.ReadsToEnd? {
      var s := Stmt.Finish(id, f.ver.mtime, hash.file(PadAll(f.ver.chunks)));
      ExecConcat(db, ss, [s]);
      ExecFew(Exec(db, ss), s, s, s);
    } else {
      assert ss + [] == ss;
    }
  }

  /** A root whose row `update_entry` does not mark, or does not find, is not known after the callback either. */
  lemma RootStaysLost(db: Db, cfg: Config, cache: Cache, v: Visit, l: Loss)
    requires Structure(db) && FreshIds(cfg.rowids) && Placed(v) && CacheOk(db, cache) && Processed(cache, v)
    requires !ParentKept(db, cfg, cache, v, l)
    ensures !Intact(db, cfg, cache, v, l)
  {
    var c := RootCols(v.dir);
    var mid, parent := Exec(db, ParentStmtsWith(db, cfg, cache, v, l)), ParentIdWith(db, cfg, cache, v, l);
    var m := ManipulateWith(db, cfg, cache, v, l);
    CallbackSplit(db, cfg, cache, v, l);
    if Intact(db, cfg, cache, v, l) {
      IntegralEnd(cfg.hash, db, m.stmts);
      RootCached(cache, v.dir, parent, v.FullPath(), EntryIdWith(mid, cfg, NodeCols(parent, v.node), l.entry));
      var to := Exec(db, m.stmts);
      assert Denotes(to, parent, v.dir) && Marked(to, parent);
      if Find(db, c.parent, c.name).Some? {
        assert ParentStmtsWith(db, cfg, cache, v, l) == [] && Exec(db, []) == db;
        assert db.entries[parent].parent == 0;
        assert parent != EntryIdWith(db, cfg, NodeCols(parent, v.node), l.entry);
        NodeLeaves(db, cfg, parent, v.node, l, parent);
      }
    }
  }

  lemma RootCached(cache: Cache, dir: Path, parent: nat, p: Path, id: nat)
    requires dir !in cache
    ensures var one, two := Emplace(cache, dir, parent), Emplace(Emplace(cache, dir, parent), p, id);
            dir in one && one[dir] == parent && dir in two && two[dir] == parent
  {
  }

  /**
   * One callback, from any integral tables and agreeing cache: integrity at every boundary and
   * agreement of the cache afterwards hold if and only if its losses, if any, are harmless.
   */
  lemma CallbackExactly(db: Db, cfg: Config, cache: Cache, v: Visit, l: Loss)
    requires Structure(db) && FreshIds(cfg.rowids) && Placed(v) && CacheOk(db, cache)
    ensures Intact(db, cfg, cache, v, l) <==> Harmless(db, cfg, cache, v, l)
  {
    if !Processed(cache, v) {
      IntegralNone(cfg.hash, db);
    } else if !ParentKept(db, cfg, cache, v, l) {
      RootStaysLost(db, cfg, cache, v, l);
    } else {
      hide Integral; hide Structure; hide Denotes; hide CacheOk; hide Exec; hide ManipulateWith; hide NodeHarmless; hide ParentKept;
      hide ParentStmtsWith; hide ParentIdWith; hide NodeStmtsWith; hide EntryIdWith; hide Grows; hide Emplace;
      var s := ParentStmtsWith(db, cfg, cache, v, l);
      var mid, parent := Exec(db, s), ParentIdWith(db, cfg, cache, v, l);
      CallbackSplit(db, cfg, cache, v, l);
      ParentDamage(db, cfg, cache, v, l);
      NodeDamage(mid, cfg, parent, v, l, Emplace(cache, v.dir, parent));
      IntegralConcat(cfg.hash, db, s, NodeStmtsWith(mid, cfg, parent, v.node, l));
    }
  }

  // ---------------------------------------------------------------- a scan, a pass, a history

  ghost predicate IntactScan(db: Db, cfg: Config, cache: Cache, vs: seq<Visit>, ls: seq<Loss>)
    decreases |vs|
  {
    vs == [] ||
      var m := ManipulateWith(db, cfg, cache, vs[0], First(ls));
      && Intact(db, cfg, cache, vs[0], First(ls))
      && (m.threw || IntactScan(Exec(db, m.stmts), cfg, m.cache, vs[1..], Rest(ls)))
  }

  ghost predicate HarmlessScan(db: Db, cfg: Config, cache: Cache, vs: seq<Visit>, ls: seq<Loss>)
    decreases |vs|
  {
    vs == [] ||
      var m := ManipulateWith(db, cfg, cache, vs[0], First(ls));
      && Harmless(db, cfg, cache, vs[0], First(ls))
      && (m.threw || HarmlessScan(Exec(db, m.stmts), cfg, m.cache, vs[1..], Rest(ls)))
  }

  lemma IntactEnd(db: Db, cfg: Config, cache: Cache, v: Visit, l: Loss)
    requires Intact(db, cfg, cache, v, l)
    ensures var m := ManipulateWith(db, cfg, cache, v, l);
            Structure(Exec(db, m.stmts)) && CacheOk(Exec(db, m.stmts), m.cache)
  {
    IntegralEnd(cfg.hash, db, ManipulateWith(db, cfg, cache, v, l).stmts);
  }

  /**
   * A whole scan: integrity at every boundary and agreement of the cache after every callback hold
   * if and only if every callback's losses are harmless where they occur.
   */
  lemma {:induction false} ScanExactly(db: Db, cfg: Config, cache: Cache, vs: seq<Visit>, ls: seq<Loss>)
    requires Structure(db) && FreshIds(cfg.rowids) && CacheOk(db, cache) && forall v :: v in vs ==> Placed(v)
    ensures IntactScan(db, cfg, cache, vs, ls) <==> HarmlessScan(db, cfg, cache, vs, ls)
    decreases |vs|
  {
    if vs != [] {
      hide Intact; hide Harmless; hide ManipulateWith; hide Exec; hide Structure; hide CacheOk;
      var m := ManipulateWith(db, cfg, cache, vs[0], First(ls));
      CallbackExactly(db, cfg, cache, vs[0], First(ls));
      if Intact(db, cfg, cache, vs[0], First(ls)) && !m.threw {
        IntactEnd(db, cfg, cache, vs[0], First(ls));
        ScanExactly(Exec(db, m.stmts), cfg, m.cache, vs[1..], Rest(ls));
      }
    }
  }

  lemma {:induction false} IntactIsIntegral(db: Db, cfg: Config, cache: Cache, vs: seq<Visit>, ls: seq<Loss>)
    requires Structure(db) && CacheOk(db, cache) && IntactScan(db, cfg, cache, vs, ls)
    ensures var scan := ScanWith(db, cfg, cache, vs, ls);
            Integral(cfg.hash, db, scan.stmts) && CacheOk(Exec(db, scan.stmts), scan.cache)
    decreases |vs|
  {
    if vs == [] {
      IntegralNone(cfg.hash, db);
    } else {
      hide Integral; hide ManipulateWith; hide Exec; hide Structure; hide CacheOk;
      var m := ManipulateWith(db, cfg, cache, vs[0], First(ls));
      if !m.threw {
        var rest := ScanWith(Exec(db, m.stmts), cfg, m.cache, vs[1..], Rest(ls));
        IntactEnd(db, cfg, cache, vs[0], First(ls));
        IntactIsIntegral(Exec(db, m.stmts), cfg, m.cache, vs[1..], Rest(ls));
        IntegralConcat(cfg.hash, db, m.stmts, rest.stmts);
        ExecConcat(db, m.stmts, rest.stmts);
      }
    }
  }

  /** Every loss in the pass is harmless. */
  ghost predicate HarmlessRun(db: Db, run: Run, ls: seq<Loss>) {
    HarmlessScan(db, run.cfg, map[], run.Reached(), ls)
  }

  lemma ReachedPlaced(run: Run)
    ensures forall v :: v in run.Reached() ==> Placed(v)
  {
    forall v | v in run.Reached()
      ensures Placed(v)
    {
      assert v in run.Visits();
      PreorderUnder(run.tree, [run.root], IndexerOptions(), v);
    }
  }

  lemma ClosingIntegral(hash: Hasher, db: Db, run: Run)
    requires Structure(db) && !run.end.CutAfter?
    ensures Integral(hash, db, [run.Closing()])
  {
    ClosingSound(Ctx(INTEGRITY, hash, []), db, run);
  }

  /** A pass whose losses are harmless keeps integrity at every boundary, however it ends. */
  lemma HarmlessPass(db: Db, run: Run, ls: seq<Loss>)
    requires Structure(db) && run.Valid() && HarmlessRun(db, run, ls)
    ensures Integral(run.cfg.hash, db, RunStmtsWith(db, run, ls)) && Structure(AfterRunWith(db, run, ls))
  {
    hide Structure; hide Integral; hide ScanWith; hide IntactScan; hide HarmlessScan; hide Preorder; hide CacheOk; hide Exec;
    var hash := run.cfg.hash;
    var scan := ScanWith(db, run.cfg, map[], run.Reached(), ls);
    var ss := RunStmtsWith(db, run, ls);
    ReachedPlaced(run);
    NothingCached(db);
    ScanExactly(db, run.cfg, map[], run.Reached(), ls);
    IntactIsIntegral(db, run.cfg, map[], run.Reached(), ls);
    if run.end.CutAfter? && run.end.statements <= |scan.stmts| {
      assert scan.stmts == ss + scan.stmts[run.end.statements..];
      IntegralPrefix(hash, db, ss, scan.stmts[run.end.statements..]);
    } else if !run.end.CutAfter? && !scan.threw {
      IntegralEnd(hash, db, scan.stmts);
      ClosingIntegral(hash, Exec(db, scan.stmts), run);
      IntegralConcat(hash, db, scan.stmts, [run.Closing()]);
    }
    IntegralEnd(hash, db, ss);
  }

  lemma NothingCached(db: Db)
    ensures CacheOk(db, map[])
  {
  }

  /** A pass together with what it loses. */
  datatype LossyRun = LossyRun(run: Run, losses: seq<Loss>)

  ghost function AfterLosses(runs: seq<LossyRun>): Db
    decreases |runs|
  {
    if runs == [] then EMPTY
    else AfterRunWith(AfterLosses(runs[..|runs| - 1]), runs[|runs| - 1].run, runs[|runs| - 1].losses)
  }

  /** In every pass of the history the scan stays intact; of a pass that was cut off, the scan it was making. */
  ghost predicate IntactHistory(runs: seq<LossyRun>)
    decreases |runs|
  {
    runs == [] ||
      var before, last := runs[..|runs| - 1], runs[|runs| - 1];
      && IntactHistory(before)
      && IntactScan(AfterLosses(before), last.run.cfg, map[], last.run.Reached(), last.losses)
  }

  ghost predicate HarmlessHistory(runs: seq<LossyRun>)
    decreases |runs|
  {
    runs == [] ||
      var before, last := runs[..|runs| - 1], runs[|runs| - 1];
      HarmlessHistory(before) && HarmlessRun(AfterLosses(before), last.run, last.losses)
  }

  /**
   * Over whole histories: every scan keeps integrity at every boundary and its cache in agreement
   * if and only if every loss was harmless, and then the tables it leaves are integral.
   */
  lemma {:induction false} HistoryExactly(runs: seq<LossyRun>)
    requires forall r :: r in runs ==> r.run.Valid()
    ensures IntactHistory(runs) <==> HarmlessHistory(runs)
    ensures HarmlessHistory(runs) ==> Structure(AfterLosses(runs))
    decreases |runs|
  {
    if runs != [] {
      var before, last := runs[..|runs| - 1], runs[|runs| - 1];
      HistoryExactly(before);
      if HarmlessHistory(before) {
        ReachedPlaced(last.run);
        ScanExactly(AfterLosses(before), last.run.cfg, map[], last.run.Reached(), last.losses);
        if HarmlessHistory(runs) {
          HarmlessPass(AfterLosses(before), last.run, last.losses);
        }
      }
    }
  }
}
