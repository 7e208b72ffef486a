/**
 * What becomes of tables that a pass has damaged without noticing: after any history, whatever its
 * passes lost, one pass that gets through its sweep and one complete pass that loses nothing put
 * the rows right. Blocks stored under rowid 0 stay for good.
 */
module Recovery {
  import opened Common
  import opened Tree
  import opened Store
  import opened Pass
  import opened Integrity
  import opened Paths
  import opened Stabilise
  import opened Losses
  import opened Damage
  import opened Database

  // ---------------------------------------------------------------- what no loss can break

  /** Keys are unique, and a block row belongs to a row or is stored under rowid 0. */
  ghost predicate Sane(db: Db) {
    Keyed(db) && forall k :: k in db.blocks ==> k.1 >= 1 && (k.0 == 0 || k.0 in db.entries)
  }

  /** A statement as the pass issues it: new rowids are fresh, and blocks are those of a row or, if something was lost, of rowid 0. */
  ghost predicate Proper(db: Db, s: Stmt, lossy: bool) {
    match s
    case Insert(rowid, _) => rowid != 0 && rowid !in db.entries
    case BlockInsert(id, no, _) => no >= 1 && (id in db.entries || (lossy && id == 0))
    case BlockUpdate(id, _, _) => id in db.entries || (lossy && id == 0)
    case BlockDeleteAbove(id, _) => id in db.entries || (lossy && id == 0)
    case _ => true
  }

  ghost predicate ProperAlong(db: Db, ss: seq<Stmt>, lossy: bool)
    decreases |ss|
  {
    ss == [] || (Proper(db, ss[0], lossy) && ProperAlong(Apply(db, ss[0]), ss[1..], lossy))
  }

  ghost predicate SameBlock(from: Db, to: Db, k: (nat, nat)) {
    (k in to.blocks <==> k in from.blocks) && (k in from.blocks && k in to.blocks ==> to.blocks[k] == from.blocks[k])
  }

  /** The block rows of rowid 0 are the same. */
  ghost predicate SameStray(from: Db, to: Db) {
    forall no: nat :: SameBlock(from, to, (0, no))
  }

  lemma ApplyProper(db: Db, s: Stmt, lossy: bool)
    requires Sane(db) && Proper(db, s, lossy)
    ensures Sane(Apply(db, s))
    ensures !lossy ==> SameStray(db, Apply(db, s))
  {
    hide UniqueKeys;
    ApplyKeepsKeys(db, s);
  }

  lemma {:induction false} ExecProper(db: Db, ss: seq<Stmt>, lossy: bool)
    requires Sane(db) && ProperAlong(db, ss, lossy)
    ensures Sane(Exec(db, ss))
    ensures !lossy ==> SameStray(db, Exec(db, ss))
    decreases |ss|
  {
    if ss != [] {
      hide Sane; hide Proper; hide Apply;
      ApplyProper(db, ss[0], lossy);
      ExecProper(Apply(db, ss[0]), ss[1..], lossy);
    }
  }

  lemma {:induction false} ProperConcat(db: Db, a: seq<Stmt>, b: seq<Stmt>, lossy: bool)
    ensures ProperAlong(db, a + b, lossy) <==> ProperAlong(db, a, lossy) && ProperAlong(Exec(db, a), b, lossy)
    decreases |a|
  {
    hide Proper; hide Apply;
    if a == [] {
      assert a + b == b;
    } else {
      assert (a + b)[0] == a[0] && (a + b)[1..] == a[1..] + b;
      ProperConcat(Apply(db, a[0]), a[1..], b, lossy);
    }
  }

  lemma ProperFew(db: Db, a: Stmt, b: Stmt, c: Stmt, lossy: bool)
    ensures ProperAlong(db, [], lossy)
    ensures Proper(db, a, lossy) ==> ProperAlong(db, [a], lossy)
    ensures Proper(db, a, lossy) && Proper(Apply(db, a), b, lossy) ==> ProperAlong(db, [a, b], lossy)
    ensures Proper(db, a, lossy) && Proper(Apply(db, a), b, lossy) && Proper(Apply(Apply(db, a), b), c, lossy) ==>
              ProperAlong(db, [a, b, c], lossy)
  {
    hide Proper; hide Apply;
    var one, two := Apply(db, a), Apply(Apply(db, a), b);
    assert [a][1..] == [] && ProperAlong(db, [a], lossy) == Proper(db, a, lossy);
    assert [b][1..] == [] && ProperAlong(one, [b], lossy) == Proper(one, b, lossy);
    assert [c][1..] == [] && ProperAlong(two, [c], lossy) == Proper(two, c, lossy);
    assert [b, c][1..] == [c] && ProperAlong(one, [b, c], lossy) == (Proper(one, b, lossy) && ProperAlong(two, [c], lossy));
    assert [a, b][1..] == [b] && [a, b, c][1..] == [b, c];
  }

  lemma EntryProper(db: Db, cfg: Config, c: Cols, mtime: nat, fate: Fate, lossy: bool)
    requires FreshIds(cfg.rowids)
    ensures ProperAlong(db, EntryStmtsWith(db, cfg, c, mtime, fate), lossy)
  {
    hide ProperAlong; hide Apply;
    var f := Find(db, c.parent, c.name);
    var ins, upd, touch := Stmt.Insert(cfg.rowids(db.entries.Keys), c), Stmt.Update(c), Stmt.Touch(if f.Some? then f.value else 0);
    ProperFew(db, ins, upd, upd, lossy);
    ProperFew(db, touch, touch, touch, lossy);
    assert ins.rowid !in db.entries.Keys;
    var ss := EntryStmtsWith(db, cfg, c, mtime, fate);
    assert ss == [] || ss == [touch] || ss == [ins, upd] || ss == [ins];
  }

  /** The rowid with which the pass goes on is that of a row, or 0 if the row was lost. */
  lemma EntryOwned(db: Db, cfg: Config, c: Cols, mtime: nat, fate: Fate)
    requires FreshIds(cfg.rowids)
    ensures var id := EntryIdWith(db, cfg, c, fate);
            id in Exec(db, EntryStmtsWith(db, cfg, c, mtime, fate)).entries || (!fate.Kept? && id == 0)
  {
    EntryEffect(db, cfg, c, mtime);
  }

  ghost predicate Owner(db: Db, id: nat, lossy: bool) {
    id in db.entries || (lossy && id == 0)
  }

  lemma OneBlockProper(db: Db, hash: Hasher, id: nat, no: nat, chunk: Bytes, lost: bool, lossy: bool)
    requires Owner(db, id, lossy) && no >= 1
    ensures var one := OneBlockStmtsWith(db, hash, id, no, chunk, lost);
            ProperAlong(db, one, lossy) && Owner(Exec(db, one), id, lossy)
  {
    hide ProperAlong; hide Pad;
    var d := hash.block(Pad(chunk));
    var ins, upd, del := BlockInsert(id, no, d), BlockUpdate(id, no, d), BlockDeleteAbove(id, no);
    ProperFew(db, ins, upd, del, lossy);
    ProperFew(db, ins, del, del, lossy);
    ProperFew(db, del, del, del, lossy);
    ExecFew(db, ins, upd, del);
    ExecFew(db, ins, del, del);
    ExecFew(db, del, del, del);
    assert OneBlockStmtsWith(db, hash, id, no, chunk, lost) == if lost then [del] else if (id, no) in db.blocks then [ins, upd, del] else [ins, del];
  }

  lemma {:induction false} BlocksProper(db: Db, hash: Hasher, id: nat, chunks: seq<Bytes>, n: nat, lost: seq<bool>, lossy: bool)
    requires Owner(db, id, lossy) && n <= |chunks|
    ensures ProperAlong(db, BlockStmtsWith(db, hash, id, chunks, n, lost), lossy)
    decreases |chunks| - n
  {
    if n < |chunks| {
      hide OneBlockStmtsWith; hide ProperAlong; hide Exec; hide Owner; hide LostAt; hide Pad;
      var one := OneBlockStmtsWith(db, hash, id, n + 1, chunks[n], LostAt(lost, n));
      OneBlockProper(db, hash, id, n + 1, chunks[n], LostAt(lost, n), lossy);
      BlocksProper(Exec(db, one), hash, id, chunks, n + 1, lost, lossy);
      ProperConcat(db, one, BlockStmtsWith(Exec(db, one), hash, id, chunks, n + 1, lost), lossy);
    }
  }

  lemma FileProper(db: Db, hash: Hasher, id: nat, f: Node, lost: seq<bool>, lossy: bool)
    requires f.File? && Owner(db, id, lossy)
    ensures ProperAlong(db, FileStmtsWith(db, hash, id, f, lost), lossy)
  {
    hide ProperAlong; hide BlockStmtsWith; hide Exec; hide PadAll;
    var write := BlockStmtsWith(db, hash, id, Delivered(f), 0, lost);
    var fin := Stmt.Finish(id, f.ver.mtime, hash.file(PadAll(f.ver.chunks)));
    BlocksProper(db, hash, id, Delivered(f), 0, lost, lossy);
    ProperFew(Exec(db, write), fin, fin, fin, lossy);
    ProperConcat(db, write, [fin], lossy);
    assert write + [] == write;
  }

  lemma NodeProper(db: Db, cfg: Config, parent: nat, n: Node, l: Loss, lossy: bool)
    requires FreshIds(cfg.rowids) && (lossy || l.entry.Kept?)
    ensures ProperAlong(db, NodeStmtsWith(db, cfg, parent, n, l), lossy)
  {
    hide ProperAlong; hide EntryStmtsWith; hide EntryIdWith; hide FileStmtsWith; hide Exec;
    var c := NodeCols(parent, n);
    var entry := EntryStmtsWith(db, cfg, c, n.ver.mtime, l.entry);
    EntryProper(db, cfg, c, n.ver.mtime, l.entry, lossy);
    if Rehashed(db, cfg, parent, n) {
      var id := EntryIdWith(db, cfg, c, l.entry);
      EntryOwned(db, cfg, c, n.ver.mtime, l.entry);
      FileProper(Exec(db, entry), cfg.hash, id, n, l.blocks, lossy);
      ProperConcat(db, entry, FileStmtsWith(Exec(db, entry), cfg.hash, id, n, l.blocks), lossy);
    } else {
      assert entry + [] == entry;
    }
  }

  lemma VisitProper(db: Db, cfg: Config, cache: Cache, v: Visit, l: Loss, lossy: bool)
    requires FreshIds(cfg.rowids) && (lossy || Clean(l))
    ensures ProperAlong(db, ManipulateWith(db, cfg, cache, v, l).stmts, lossy)
  {
    if Processed(cache, v) {
      hide ProperAlong; hide EntryStmtsWith; hide NodeStmtsWith; hide Exec; hide ManipulateWith;
      CallbackSplit(db, cfg, cache, v, l);
      var s, parent := ParentStmtsWith(db, cfg, cache, v, l), ParentIdWith(db, cfg, cache, v, l);
      assert ProperAlong(db, s, lossy) by {
        EntryProper(db, cfg, RootCols(v.dir), 0, l.root, lossy);
        ProperFew(db, Sweep, Sweep, Sweep, lossy);
      }
      NodeProper(Exec(db, s), cfg, parent, v.node, l, lossy);
      ProperConcat(db, s, NodeStmtsWith(Exec(db, s), cfg, parent, v.node, l), lossy);
    }
  }

  lemma {:induction false} ScanProper(db: Db, cfg: Config, cache: Cache, vs: seq<Visit>, ls: seq<Loss>, lossy: bool)
    requires FreshIds(cfg.rowids) && (lossy || AllClean(ls))
    ensures ProperAlong(db, ScanWith(db, cfg, cache, vs, ls).stmts, lossy)
    decreases |vs|
  {
    if vs != [] {
      hide ProperAlong; hide ManipulateWith; hide Exec; hide Clean;
      var m := ManipulateWith(db, cfg, cache, vs[0], First(ls));
      assert !lossy ==> Clean(First(ls)) by { CleanFirst(ls); }
      VisitProper(db, cfg, cache, vs[0], First(ls), lossy);
      if !m.threw {
        ScanProper(Exec(db, m.stmts), cfg, m.cache, vs[1..], Rest(ls), lossy);
        ProperConcat(db, m.stmts, ScanWith(Exec(db, m.stmts), cfg, m.cache, vs[1..], Rest(ls)).stmts, lossy);
      }
    }
  }

  lemma CleanFirst(ls: seq<Loss>)
    ensures AllClean(ls) ==> Clean(First(ls)) && AllClean(Rest(ls))
  {
  }

  lemma RunProper(db: Db, run: Run, ls: seq<Loss>, lossy: bool)
    requires run.Valid() && (lossy || AllClean(ls))
    ensures ProperAlong(db, RunStmtsWith(db, run, ls), lossy)
  {
    hide ProperAlong; hide ScanWith; hide Exec; hide AllClean; hide Preorder;
    var scan := ScanWith(db, run.cfg, map[], run.Reached(), ls);
    ScanProper(db, run.cfg, map[], run.Reached(), ls, lossy);
    if run.end.CutAfter? && run.end.statements <= |scan.stmts| {
      assert scan.stmts == scan.stmts[..run.end.statements] + scan.stmts[run.end.statements..];
      ProperConcat(db, scan.stmts[..run.end.statements], scan.stmts[run.end.statements..], lossy);
    } else if !run.end.CutAfter? && !scan.threw {
      var s := run.Closing();
      ProperFew(Exec(db, scan.stmts), s, s, s, lossy);
      ProperConcat(db, scan.stmts, [s], lossy);
    }
  }

  /** Whatever the passes lose, keys stay unique and blocks belong to rows or to rowid 0. */
  lemma {:induction false} LossyHistorySane(runs: seq<LossyRun>)
    requires forall r :: r in runs ==> r.run.Valid()
    ensures Sane(AfterLosses(runs))
    decreases |runs|
  {
    if runs != [] {
      hide Sane; hide ProperAlong; hide RunStmtsWith; hide Exec;
      var before, last := runs[..|runs| - 1], runs[|runs| - 1];
      LossyHistorySane(before);
      RunProper(AfterLosses(before), last.run, last.losses, true);
      ExecProper(AfterLosses(before), RunStmtsWith(AfterLosses(before), last.run, last.losses), true);
    } else {
      assert Sane(EMPTY);
    }
  }
  // ---------------------------------------------------------------- a scan of tables that are only keyed

  /** `update_entry` on tables with unique keys: the row it writes is found or fresh, below a marked parent. */
  lemma EntryKeyed(db: Db, cfg: Config, c: Cols, mtime: nat, dir: Path)
    requires Keyed(db) && FreshIds(cfg.rowids)
    requires if dir == [] then c.parent == 0 else Denotes(db, c.parent, dir) && Marked(db, c.parent)
    ensures var id, row := EntryId(db, cfg, c), EntryRow(db, cfg, c, mtime);
            PutKeyed(db, id, row) && Denotes(Put(db, id, row), id, dir + [c.name])
  {
    hide UniqueKeys;
    var id, row := EntryId(db, cfg, c), EntryRow(db, cfg, c, mtime);
    assert (dir + [c.name])[..|dir|] == dir;
    if dir != [] {
      assert id !in db.entries ==> id !in db.entries.Keys;
      KeysOfPut(db, id, row);
      DenotesKept(db, Put(db, id, row), c.parent, dir);
    }
  }

  lemma KeysOfPut(db: Db, id: nat, row: Row)
    requires id in db.entries ==> db.entries[id].parent == row.parent && db.entries[id].name == row.name
    ensures KeepsKeys(db, Put(db, id, row))
  {
  }

  /** One row written, whatever the others are. */
  lemma PutMarks(db: Db, to: Db, id: nat, row: Row)
    requires Keyed(db) && MarksClosed(db) && PutKeyed(db, id, row) && to.entries == Put(db, id, row).entries
    ensures Keyed(to) && MarksClosed(to) && Grows(db, to)
    ensures forall i :: Marked(to, i) <==> Marked(db, i) || i == id
    ensures forall p :: Denotes(Put(db, id, row), id, p) ==> Denotes(to, id, p)
  {
    hide UniqueKeys; hide MarksClosed;
    var put := Put(db, id, row);
    PutKeepsUniqueKeys(db, id, row);
    PutKeepsMarks(db, id, row);
    SameEntriesSame(put, to);
    forall p | Denotes(put, id, p)
      ensures Denotes(to, id, p)
    {
      DenotesKept(put, to, id, p);
    }
  }

  lemma SameEntriesSame(a: Db, b: Db)
    requires a.entries == b.entries && UniqueKeys(a) && MarksClosed(a)
    ensures UniqueKeys(b) && MarksClosed(b)
  {
    forall i: nat, j: nat | SameKey(b, i, j)
      ensures i == j
    {
      assert SameKey(a, i, j);
    }
    forall i | Marked(b, i) && b.entries[i].parent != 0
      ensures Marked(b, b.entries[i].parent)
    {
      assert Marked(a, i);
    }
  }

  /** A file's own statements change no row but its own, and that one only by finishing it. */
  lemma FileEntries(db: Db, hash: Hasher, id: nat, f: Node)
    requires f.File? && id in db.entries
    ensures Exec(db, FileStmts(db, hash, id, f)).entries ==
              if f.io.ReadsToEnd? then db.entries[id := FinishedRow(db.entries[id], f.ver.mtime, hash.file(PadAll(f.ver.chunks)))] else db.entries
  {
    hide BlockStmts; hide BlockStmtsWith; hide PadAll; hide BlocksOnly;
    var ss := BlockStmts(db, hash, id, Delivered(f), 0);
    BlocksClean(db, hash, id, Delivered(f), 0, []);
    BlocksOnlyWith(db, hash, id, Delivered(f), 0, []);
    assert ss[..|ss|] == ss;
    SameEntries(db, Exec(db, ss), id);
    if f.io.ReadsToEnd? {
      var fin := Stmt.Finish(id, f.ver.mtime, hash.file(PadAll(f.ver.chunks)));
      ExecConcat(db, ss, [fin]);
      ExecFew(Exec(db, ss), fin, fin, fin);
    } else {
      assert ss + [] == ss;
    }
  }

  /** A visit's own statements write one row, under the key of the entry. */
  lemma NodeWrites(db: Db, cfg: Config, parent: nat, v: Visit) returns (row: Row)
    requires Keyed(db) && FreshIds(cfg.rowids) && v.dir != [] && Denotes(db, parent, v.dir) && Marked(db, parent)
    ensures var id := EntryId(db, cfg, NodeCols(parent, v.node));
            && PutKeyed(db, id, row) && Denotes(Put(db, id, row), id, v.FullPath())
            && Exec(db, NodeStmts(db, cfg, parent, v.node)).entries == Put(db, id, row).entries
  {
    hide EntryStmts; hide EntryId; hide EntryRow; hide FileStmts; hide Keyed; hide Denotes; hide PadAll; hide Exec; hide Rehashed;
    var c := NodeCols(parent, v.node);
    var id, first := EntryId(db, cfg, c), EntryRow(db, cfg, c, v.node.ver.mtime);
    var entry := EntryStmts(db, cfg, c, v.node.ver.mtime);
    EntryEffect(db, cfg, c, v.node.ver.mtime);
    EntryKeyed(db, cfg, c, v.node.ver.mtime, v.dir);
    row := first;
    if Rehashed(db, cfg, parent, v.node) {
      assert v.node.File? by { HashedIsFile(db, cfg, parent, v.node); }
      var mid := Exec(db, entry);
      FileEntries(mid, cfg.hash, id, v.node);
      ExecConcat(db, entry, FileStmts(mid, cfg.hash, id, v.node));
      if v.node.io.ReadsToEnd? {
        row := FinishedRow(first, v.node.ver.mtime, cfg.hash.file(PadAll(v.node.ver.chunks)));
        KeysOfPut(mid, id, row);
        assert Put(mid, id, row) == Put(db, id, row);
        DenotesKept(mid, Put(mid, id, row), id, v.FullPath());
      }
    } else {
      assert entry + [] == entry;
    }
  }

  lemma HashedIsFile(db: Db, cfg: Config, parent: nat, n: Node)
    requires Rehashed(db, cfg, parent, n)
    ensures n.File?
  {
  }

  /** What a callback may assume of tables whose rows may be astray: keys, closed marks, an agreeing cache. */
  ghost predicate Usable(db: Db, cache: Cache) {
    Keyed(db) && MarksClosed(db) && CacheOk(db, cache)
  }

  lemma ParentMarks(db: Db, cfg: Config, cache: Cache, v: Visit) returns (root: nat)
    requires Usable(db, cache) && FreshIds(cfg.rowids) && Placed(v) && Processed(cache, v)
    ensures var to, parent := Exec(db, ParentStmts(db, cfg, cache, v)), ParentId(db, cfg, cache, v);
            && Usable(to, Emplace(cache, v.dir, parent)) && Grows(db, to)
            && Denotes(to, parent, v.dir) && Marked(to, parent)
            && Denotes(to, root, v.dir[..1]) && Marked(to, root)
            && forall i :: Marked(to, i) ==> Marked(db, i) || i == root
  {
    if v.dir in cache {
      hide UniqueKeys;
      root := MarkedPrefix(db, cache[v.dir], v.dir, 1);
      GrowsSelf(db);
      assert Exec(db, []) == db;
    } else {
      hide EntryStmts; hide EntryId; hide EntryRow; hide UniqueKeys; hide Denotes; hide MarksClosed; hide CacheOk; hide PutKeyed; hide Keyed; hide Exec;
      var c := RootCols(v.dir);
      root := EntryId(db, cfg, c);
      var row := EntryRow(db, cfg, c, 0);
      var to := Exec(db, EntryStmts(db, cfg, c, 0));
      EntryEffect(db, cfg, c, 0);
      EntryKeyed(db, cfg, c, 0, []);
      assert [] + [c.name] == v.dir == v.dir[..1];
      PutMarks(db, to, root, row);
      CacheKept(db, to, cache);
      CacheEmplace(to, cache, v.dir, root);
    }
  }

  /** One callback marks the entry's row and the root's, and forgets nothing. */
  lemma VisitMarksAny(db: Db, cfg: Config, cache: Cache, v: Visit) returns (root: nat, id: nat)
    requires Usable(db, cache) && FreshIds(cfg.rowids) && Placed(v) && Processed(cache, v)
    ensures var m := Manipulate(db, cfg, cache, v);
            var to := Exec(db, m.stmts);
            && Usable(to, m.cache) && Grows(db, to)
            && Denotes(to, root, v.dir[..1]) && Marked(to, root) && Denotes(to, id, v.FullPath()) && Marked(to, id)
            && forall i :: Marked(to, i) ==> Marked(db, i) || i == root || i == id
  {
    hide ParentStmts; hide ParentId; hide NodeStmts; hide EntryId; hide UniqueKeys; hide Denotes; hide MarksClosed; hide CacheOk; hide PutKeyed;
    hide Keyed; hide Exec; hide Manipulate; hide Emplace;
    var mid, parent := Exec(db, ParentStmts(db, cfg, cache, v)), ParentId(db, cfg, cache, v);
    var withParent := Emplace(cache, v.dir, parent);
    root := ParentMarks(db, cfg, cache, v);
    ManipulateSplit(db, cfg, cache, v);
    id := EntryId(mid, cfg, NodeCols(parent, v.node));
    var row := NodeWrites(mid, cfg, parent, v);
    var to := Exec(mid, NodeStmts(mid, cfg, parent, v.node));
    PutMarks(mid, to, id, row);
    GrowsTrans(db, mid, to);
    CacheKept(mid, to, withParent);
    CacheEmplace(to, withParent, v.FullPath(), id);
    DenotesKept(mid, to, root, v.dir[..1]);
  }

  /** The marked rows are those of the paths reached by `vs`. */
  ghost predicate MarksAre(db: Db, vs: seq<Visit>) {
    && (forall id :: Marked(db, id) ==> exists p :: Reaches(vs, p) && Denotes(db, id, p))
    && (forall p :: Reaches(vs, p) ==> exists id :: Denotes(db, id, p) && Marked(db, id))
  }

  lemma ReachesLast(vs: seq<Visit>, v: Visit, p: Path)
    ensures Reaches(vs + [v], p) <==> Reaches(vs, p) || ReachedBy(v, p)
  {
    assert forall w :: w in vs + [v] <==> w in vs || w == v;
  }

  lemma MarkedReaches(db: Db, vs: seq<Visit>, id: nat) returns (p: Path)
    requires MarksAre(db, vs) && Marked(db, id)
    ensures Reaches(vs, p) && Denotes(db, id, p)
  {
    hide Reaches; hide Denotes;
    p :| Reaches(vs, p) && Denotes(db, id, p);
  }

  lemma ReachedMarked(db: Db, vs: seq<Visit>, p: Path) returns (id: nat)
    requires MarksAre(db, vs) && Reaches(vs, p)
    ensures Denotes(db, id, p) && Marked(db, id)
  {
    hide Reaches; hide Denotes;
    id :| Denotes(db, id, p) && Marked(db, id);
  }

  /** What one callback does to the marks. */
  ghost predicate MarkedBy(from: Db, to: Db, v: Visit, root: nat, id: nat) {
    && Grows(from, to) && v.node.accessible && v.dir != []
    && Denotes(to, root, v.dir[..1]) && Marked(to, root) && Denotes(to, id, v.FullPath()) && Marked(to, id)
    && forall i :: Marked(to, i) ==> Marked(from, i) || i == root || i == id
  }

  lemma MarkedPath(from: Db, to: Db, vs: seq<Visit>, v: Visit, root: nat, id: nat, i: nat) returns (p: Path)
    requires MarksAre(from, vs) && MarkedBy(from, to, v, root, id) && Marked(to, i)
    ensures Reaches(vs + [v], p) && Denotes(to, i, p)
  {
    hide Denotes; hide Reaches; hide MarksAre;
    if Marked(from, i) {
      p := MarkedReaches(from, vs, i);
      DenotesKept(from, to, i, p);
    } else {
      p := if i == root then v.dir[..1] else v.FullPath();
    }
    ReachesLast(vs, v, p);
  }

  lemma PathMarked(from: Db, to: Db, vs: seq<Visit>, v: Visit, root: nat, id: nat, p: Path) returns (i: nat)
    requires MarksAre(from, vs) && MarkedBy(from, to, v, root, id) && Reaches(vs + [v], p)
    ensures Denotes(to, i, p) && Marked(to, i)
  {
    hide Denotes; hide Reaches; hide MarksAre;
    ReachesLast(vs, v, p);
    if Reaches(vs, p) {
      i := ReachedMarked(from, vs, p);
      DenotesKept(from, to, i, p);
    } else {
      i := if p == v.FullPath() then id else root;
    }
  }

  lemma MarksNext(from: Db, to: Db, vs: seq<Visit>, v: Visit, root: nat, id: nat)
    requires MarksAre(from, vs) && MarkedBy(from, to, v, root, id)
    ensures MarksAre(to, vs + [v])
  {
    hide Denotes; hide Reaches; hide MarkedBy;
    forall i | Marked(to, i)
      ensures exists p :: Reaches(vs + [v], p) && Denotes(to, i, p)
    {
      var p := MarkedPath(from, to, vs, v, root, id, i);
    }
    forall p | Reaches(vs + [v], p)
      ensures exists i :: Denotes(to, i, p) && Marked(to, i)
    {
      var i := PathMarked(from, to, vs, v, root, id, p);
    }
  }

  lemma MarksSame(db: Db, vs: seq<Visit>, v: Visit)
    requires MarksAre(db, vs) && !v.node.accessible
    ensures MarksAre(db, vs + [v])
  {
    hide Denotes; hide Reaches;
    forall p
      ensures Reaches(vs + [v], p) <==> Reaches(vs, p)
    {
      ReachesLast(vs, v, p);
    }
  }

  lemma SkippedAny(db: Db, cfg: Config, cache: Cache, v: Visit)
    requires !Processed(cache, v)
    ensures Exec(db, Manipulate(db, cfg, cache, v).stmts) == db && Manipulate(db, cfg, cache, v).cache == cache
    ensures Manipulate(db, cfg, cache, v).threw <==> v.node.accessible
  {
  }

  lemma VisitMarksNext(db: Db, cfg: Config, cache: Cache, seen: seq<Visit>, v: Visit)
    requires Usable(db, cache) && FreshIds(cfg.rowids) && MarksAre(db, seen) && Placed(v)
    requires !Manipulate(db, cfg, cache, v).threw
    ensures var m := Manipulate(db, cfg, cache, v);
            Usable(Exec(db, m.stmts), m.cache) && MarksAre(Exec(db, m.stmts), seen + [v])
  {
    hide Usable; hide MarksAre; hide Manipulate; hide Exec; hide Denotes; hide Grows;
    if Processed(cache, v) {
      var root, id := VisitMarksAny(db, cfg, cache, v);
      MarksNext(db, Exec(db, Manipulate(db, cfg, cache, v).stmts), seen, v, root, id);
    } else {
      SkippedAny(db, cfg, cache, v);
      MarksSame(db, seen, v);
    }
  }

  lemma ScanApart(db: Db, cfg: Config, cache: Cache, vs: seq<Visit>)
    requires vs != [] && !ScanAll(db, cfg, cache, vs).threw
    ensures var m := Manipulate(db, cfg, cache, vs[0]);
            var rest, scan := ScanAll(Exec(db, m.stmts), cfg, m.cache, vs[1..]), ScanAll(db, cfg, cache, vs);
            && !m.threw && !rest.threw && scan.cache == rest.cache && Exec(db, scan.stmts) == Exec(Exec(db, m.stmts), rest.stmts)
  {
    hide Manipulate; hide Exec;
    var m := Manipulate(db, cfg, cache, vs[0]);
    ExecConcat(db, m.stmts, ScanAll(Exec(db, m.stmts), cfg, m.cache, vs[1..]).stmts);
  }

  lemma ScanNone(db: Db, cfg: Config, cache: Cache)
    ensures ScanAll(db, cfg, cache, []) == Scan([], cache, false) && Exec(db, []) == db
  {
  }

  /** From tables whose marks are those of the visits before, a scan that does not throw adds exactly the marks of its own. */
  lemma {:induction false} ScanMarksAny(db: Db, cfg: Config, cache: Cache, seen: seq<Visit>, vs: seq<Visit>)
    requires Usable(db, cache) && FreshIds(cfg.rowids) && MarksAre(db, seen) && forall v :: v in vs ==> Placed(v)
    requires !ScanAll(db, cfg, cache, vs).threw
    ensures var scan := ScanAll(db, cfg, cache, vs);
            Usable(Exec(db, scan.stmts), scan.cache) && MarksAre(Exec(db, scan.stmts), seen + vs)
    decreases |vs|
  {
    hide Usable; hide MarksAre; hide Manipulate; hide Exec; hide ScanAll; hide FreshIds;
    if vs == [] {
      ScanNone(db, cfg, cache);
      assert seen + vs == seen;
    } else {
      var m := Manipulate(db, cfg, cache, vs[0]);
      assert seen + [vs[0]] + vs[1..] == seen + vs;
      ScanApart(db, cfg, cache, vs);
      VisitMarksNext(db, cfg, cache, seen, vs[0]);
      ScanMarksAny(Exec(db, m.stmts), cfg, m.cache, seen + [vs[0]], vs[1..]);
    }
  }

  // ---------------------------------------------------------------- recovery

  ghost predicate Unmarked(db: Db) {
    forall id :: !Marked(db, id)
  }

  /** One row for each reached path, every row one of these, and nothing marked. */
  ghost predicate RowsAre(db: Db, vs: seq<Visit>) {
    && Keyed(db) && Forest(db) && Unmarked(db)
    && forall p :: HasRow(db, p) <==> Reaches(vs, p)
  }

  lemma SweptPath(db: Db, vs: seq<Visit>, p: Path)
    requires 0 !in db.entries && MarksClosed(db) && MarksAre(db, vs)
    ensures HasRow(Apply(db, Sweep), p) <==> Reaches(vs, p)
  {
    hide Reaches; hide Apply; hide Denotes; hide MarksClosed; hide MarksAre; hide Marked;
    if id: nat :| Denotes(Apply(db, Sweep), id, p) {
      MarksSurvive(db, id, p);
      var q := MarkedReaches(db, vs, id);
      DenotesOnePath(db, id, p, q);
    }
    if Reaches(vs, p) {
      var id := ReachedMarked(db, vs, p);
      MarksSurvive(db, id, p);
    }
  }

  lemma SweptForest(db: Db, vs: seq<Visit>)
    requires 0 !in db.entries && MarksClosed(db) && MarksAre(db, vs)
    ensures Forest(Apply(db, Sweep))
  {
    hide Reaches; hide Apply; hide Denotes; hide MarksClosed;
    SweepUnmarks(db);
    forall id | id in Apply(db, Sweep).entries
      ensures exists p :: Denotes(Apply(db, Sweep), id, p)
    {
      var p :| Reaches(vs, p) && Denotes(db, id, p);
      MarksSurvive(db, id, p);
    }
  }

  lemma SweptRows(db: Db, vs: seq<Visit>)
    requires Keyed(db) && MarksClosed(db) && MarksAre(db, vs)
    ensures RowsAre(Apply(db, Sweep), vs)
  {
    hide Reaches; hide Apply; hide UniqueKeys; hide MarksClosed; hide MarksAre; hide Forest; hide HasRow; hide Unmarked;
    ApplyKeepsKeys(db, Sweep);
    SweepUnmarks(db);
    SweptForest(db, vs);
    forall p
      ensures HasRow(Apply(db, Sweep), p) <==> Reaches(vs, p)
    {
      SweptPath(db, vs, p);
    }
  }

  lemma SweepUnmarks(db: Db)
    ensures Unmarked(Apply(db, Sweep))
    ensures forall id :: id in Apply(db, Sweep).entries <==> Marked(db, id)
  {
  }

  lemma NothingMarked(db: Db)
    requires Keyed(db) && Unmarked(db)
    ensures Usable(db, map[]) && MarksAre(db, [])
  {
    hide UniqueKeys; hide Denotes;
  }

  /** A complete pass that loses nothing and throws nothing, over any rows none of which is marked. */
  lemma CleanPass(db: Db, run: Run)
    requires Keyed(db) && Unmarked(db) && run.Valid() && run.end.Completes? && NoOrphans(run)
    ensures RowsAre(AfterRun(db, run), run.Visits())
  {
    hide Keyed; hide Usable; hide MarksAre; hide Preorder; hide ScanAll; hide Apply; hide RowsAre; hide Exec; hide Unmarked;
    var vs := run.Visits();
    assert run.Reached() == vs;
    ReachedPlaced(run);
    NothingMarked(db);
    ThrowsExactly(db, run);
    var scan := ScanAll(db, run.cfg, map[], vs);
    ScanMarksAny(db, run.cfg, map[], [], vs);
    assert [] + vs == vs;
    var end := Exec(db, scan.stmts);
    UsableParts(end, scan.cache);
    SweptRows(end, vs);
    ExecConcat(db, scan.stmts, [Sweep]);
    ExecFew(end, Sweep, Sweep, Sweep);
  }

  lemma UsableParts(db: Db, cache: Cache)
    requires Usable(db, cache)
    ensures Keyed(db) && MarksClosed(db)
  {
  }

  /** The pass gets through its sweep. */
  ghost predicate Closes(db: Db, r: LossyRun) {
    r.run.Sweeps() && !ScanWith(db, r.run.cfg, map[], r.run.Reached(), r.losses).threw
  }

  lemma ClosedIsUnmarked(db: Db, r: LossyRun)
    requires Closes(db, r)
    ensures Unmarked(AfterRunWith(db, r.run, r.losses))
  {
    hide ScanWith; hide Apply; hide Preorder; hide Exec;
    var scan := ScanWith(db, r.run.cfg, map[], r.run.Reached(), r.losses);
    ExecConcat(db, scan.stmts, [Sweep]);
    ExecFew(Exec(db, scan.stmts), Sweep, Sweep, Sweep);
    SweepUnmarks(Exec(db, scan.stmts));
  }

  lemma OneMore(history: seq<LossyRun>, r: LossyRun)
    ensures AfterLosses(history + [r]) == AfterRunWith(AfterLosses(history), r.run, r.losses)
  {
    assert (history + [r])[..|history|] == history;
  }

  /**
   * Recovery: after any history, whatever its passes lost and however they ended, and one more pass
   * that gets through its sweep, whatever it loses, a complete pass that loses nothing leaves
   * exactly one row for each path of the tree. The tables are integral again if and only if nothing
   * is stored under rowid 0 and the root's row is not a file that was stored as a root by mistake.
   */
  lemma Recovers(history: seq<LossyRun>, first: LossyRun, second: Run)
    requires (forall r :: r in history ==> r.run.Valid()) && first.run.Valid() && Closes(AfterLosses(history), first)
    requires second.Valid() && second.end.Completes? && NoOrphans(second)
    ensures var db := AfterRun(AfterLosses(history + [first]), second);
            && RowsAre(db, second.Visits()) && Sane(db)
            && (Structure(db) <==> RootRows(db) && forall no :: (0, no) !in db.blocks)
  {
    hide RowsAre; hide Sane; hide RunStmtsWith; hide RunStmts; hide ProperAlong; hide Closes; hide AfterLosses; hide Exec; hide Keyed; hide Structure; hide RootRows;
    var runs := history + [first];
    var mid := AfterLosses(runs);
    OneMore(history, first);
    ClosedIsUnmarked(AfterLosses(history), first);
    LossyHistorySane(runs);
    SaneIsKeyed(mid);
    CleanPass(mid, second);
    NothingLost(mid, second, []);
    RunProper(mid, second, [], true);
    ExecProper(mid, RunStmts(mid, second), true);
    IntegralAgain(AfterRun(mid, second), second.Visits());
  }

  lemma SaneIsKeyed(db: Db)
    requires Sane(db)
    ensures Keyed(db)
  {
  }

  lemma OwnedUnlessStray(db: Db)
    requires Sane(db)
    ensures BlocksOwned(db) <==> forall no :: (0, no) !in db.blocks
  {
    hide UniqueKeys;
    if forall no :: (0, no) !in db.blocks {
      forall k | k in db.blocks
        ensures k.0 in db.entries && k.1 >= 1
      {
        assert k == (k.0, k.1);
      }
    }
    if no :| (0, no) in db.blocks {
      var k: (nat, nat) := (0, no);
      assert k in db.blocks && k.0 == 0;
    }
  }

  lemma IntegralAgain(db: Db, vs: seq<Visit>)
    requires RowsAre(db, vs) && Sane(db)
    ensures Structure(db) <==> RootRows(db) && forall no :: (0, no) !in db.blocks
  {
    hide UniqueKeys; hide Forest; hide RootRows; hide BlocksOwned;
    OwnedUnlessStray(db);
  }

  /** No pass that loses nothing changes the blocks stored under rowid 0, however many follow and however they end. */
  lemma {:induction false} StrayBlocksStay(history: seq<LossyRun>, later: seq<LossyRun>)
    requires forall r :: r in history + later ==> r.run.Valid()
    requires forall r :: r in later ==> AllClean(r.losses)
    ensures SameStray(AfterLosses(history), AfterLosses(history + later))
    decreases |later|
  {
    if later == [] {
      assert history + later == history;
    } else {
      hide ProperAlong; hide RunStmtsWith; hide AllClean; hide Exec; hide AfterLosses; hide Sane; hide SameStray;
      var before, last := later[..|later| - 1], later[|later| - 1];
      assert history + later == (history + before) + [last];
      var mid := AfterLosses(history + before);
      StrayBlocksStay(history, before);
      LossyHistorySane(history + before);
      RunProper(mid, last.run, last.losses, false);
      ExecProper(mid, RunStmtsWith(mid, last.run, last.losses), false);
      OneMore(history + before, last);
      SameStrayTrans(AfterLosses(history), mid, AfterLosses(history + later));
    }
  }

  lemma SameStrayTrans(a: Db, b: Db, c: Db)
    requires SameStray(a, b) && SameStray(b, c)
    ensures SameStray(a, c)
  {
    forall no: nat
      ensures SameBlock(a, c, (0, no))
    {
      assert SameBlock(a, b, (0, no)) && SameBlock(b, c, (0, no));
    }
  }
}
