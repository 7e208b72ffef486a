/**
 * `directory_indexer::reindex` as it runs: the `parents` map, the reused block buffer and the
 * digest contexts are updated in place and the statements go to a `Connection` one at a time.
 * Each method is proved to run the statement sequence of module Losses for what it lost, which is
 * that of module Pass when it lost nothing, or a prefix when stopped.
 */
module Indexer {
  import opened Common
  import opened Tree
  import opened Store
  import opened Pass
  import opened FileDigest
  import opened Losses
  import opened Database
  import Cdc512
  import Reader

  /** Reads of the file are well formed. */
  ghost predicate Readable(f: Node) {
    && f.File? && ValidChunks(f.ver.chunks)
    && (f.io.ReadFailsAfter? ==> f.io.delivered <= |f.ver.chunks|)
  }

  ghost function DigestStmts(db: Db, id: nat, no: nat, digest: Bytes): seq<Stmt> {
    [Stmt.BlockInsert(id, no, digest)] + (if (id, no) in db.blocks then [Stmt.BlockUpdate(id, no, digest)] else [])
  }

  /** `_read`: the next chunk, 0 at the end, -1 for an error. The rest of the buffer keeps what it held. */
  method Read(f: Node, at: nat, buf: array<bv8>) returns (r: int)
    requires Readable(f) && !f.io.OpenFails? && at <= |Delivered(f)| && buf.Length == BLOCK_SIZE
    modifies buf
    ensures at < |Delivered(f)| ==>
              r == |Delivered(f)[at]| && buf[..r] == Delivered(f)[at] && buf[r..] == old(buf[..])[r..]
    ensures at == |Delivered(f)| ==> r == (if f.io.ReadsToEnd? then 0 else -1)
  {
    if f.io.ReadFailsAfter? && at == f.io.delivered {
      return -1;
    }
    if at == |f.ver.chunks| {
      return 0;
    }
    var chunk := f.ver.chunks[at];
    forall i | 0 <= i < |chunk| {
      buf[i] := chunk[i];
    }
    return |chunk|;
  }

  /** The read and the `memset` behind it: whatever the buffer held, it now holds the padded chunk. */
  method ReadPadded(f: Node, at: nat, buf: array<bv8>) returns (r: int)
    requires Readable(f) && !f.io.OpenFails? && at <= |Delivered(f)| && buf.Length == BLOCK_SIZE
    modifies buf
    ensures at < |Delivered(f)| ==> r > 0 && buf[..] == Pad(Delivered(f)[at])
    ensures at == |Delivered(f)| ==> r == (if f.io.ReadsToEnd? then 0 else -1)
  {
    r := Read(f, at, buf);
    if 0 < r < BLOCK_SIZE {
      forall i | r <= i < BLOCK_SIZE {
        buf[i] := 0;
      }
    }
    if at < |Delivered(f)| {
      assert buf[..] == buf[..r] + buf[r..];
    }
  }

  lemma FoundAfterInsert(db: Db, rowid: nat, c: Cols)
    requires Find(db, c.parent, c.name).None?
    ensures Exec(db, [Stmt.Insert(rowid, c)]) == Put(db, rowid, InsertedRow(c))
    ensures Find(Put(db, rowid, InsertedRow(c)), c.parent, c.name) == Some(rowid)
  {
    var s := Stmt.Insert(rowid, c);
    ExecFew(db, s, s, s);
    var to := Put(db, rowid, InsertedRow(c));
    assert IsKey(to, rowid, c.parent, c.name);
    forall id | IsKey(to, id, c.parent, c.name)
      ensures id == rowid
    {
      if id != rowid {
        assert IsKey(db, id, c.parent, c.name);
      }
    }
  }

  /** The reads of every file of a well-formed tree are well formed. */
  lemma {:induction false} PreorderReadable(kids: seq<Node>, dir: Path, opts: Options, v: Visit)
    requires ValidTree(kids) && v in Preorder(kids, dir, opts) && v.node.File?
    ensures Readable(v.node)
    decreases kids
  {
    var n := kids[0];
    if v in Preorder(kids[1..], dir, opts) {
      PreorderReadable(kids[1..], dir, opts, v);
    } else if v != Visit(dir, |dir|, n) {
      PreorderReadable(n.kids, dir + [n.name], opts, v);
    }
  }

  /** Every directory opens and is read to the end, and no callback stops or throws by itself. */
  ghost predicate Smooth(world: Reader.World) {
    && (forall p :: world.open(p).Opens? && world.list(p) != [] && !world.breaks(p))
    && (forall n :: world.reacts(n).Continues?)
  }

  lemma NotSmooth(world: Reader.World, n: nat)
    requires !world.reacts(n).Continues?
    ensures !Smooth(world)
  {
  }

  /** What ends a traversal without an exception before everything has been reported: an abort after so many entries, or a directory that has vanished. */
  ghost predicate MayEndEarly(world: Reader.World, visits: nat) {
    world.reacts(visits).Aborts? || exists p :: world.open(p).PathNotFound?
  }

  /** So a pass over the tables of a history, stopped or not, leaves the tables of a longer history. */
  lemma HistoryGrows(history: seq<Run>, run: Run)
    ensures AfterHistory(history + [run]) == AfterRun(AfterHistory(history), run)
  {
    assert (history + [run])[..|history|] == history;
  }

  class DirectoryIndexer {
    const modifiedOnly: bool
    const db: Connection
    var parents: Cache

    constructor (modifiedOnly: bool, db: Connection)
      ensures this.modifiedOnly == modifiedOnly && this.db == db
    {
      this.modifiedOnly, this.db := modifiedOnly, db;
      parents := map[];
    }

    function Cfg(): Config {
      Config(modifiedOnly, db.rowids, CDC)
    }

    method UpdateBlockDigest(id: nat, no: nat, digest: Bytes) returns (st: Status, ghost lost: bool)
      requires db.Valid()
      modifies db
      ensures db.Valid() && (lost ==> st.Done? && db.CanLose())
      ensures db.RanAll(old(db.Value()), old(db.trace), if lost then [] else DigestStmts(old(db.Value()), id, no, digest), st)
    {
      ghost var before, done := db.Value(), db.trace;
      ghost var ins, upd := Stmt.BlockInsert(id, no, digest), Stmt.BlockUpdate(id, no, digest);
      var conflict;
      st, conflict, lost := db.BlockInsert(id, no, digest);
      if lost {
        db.RanNone(before, done);
      } else {
        db.RanOne(before, done, ins, st);
        assert [ins] + [] == [ins];
        if st.Stopped? {
          db.RanPart(before, done, [ins], if (id, no) in before.blocks then [upd] else []);
        }
      }
      if st.Done? && conflict {
        st := db.BlockUpdate(id, no, digest);
        db.RanOne(Exec(before, [ins]), done + [ins], upd, st);
        db.RanThen(before, done, [ins], [upd], st);
      }
    }

    /** The digest of one block goes to its row, and rows of higher numbers go away. */
    method StoreBlock(id: nat, no: nat, block: Bytes, ghost chunk: Bytes) returns (st: Status, ghost lost: bool)
      requires db.Valid() && block == Pad(chunk)
      modifies db
      ensures db.Valid() && (lost ==> db.CanLose())
      ensures db.RanAll(old(db.Value()), old(db.trace), OneBlockStmtsWith(old(db.Value()), CDC, id, no, chunk, lost), st)
    {
      hide Cdc512.DigestOf; hide Cdc512.Finished; hide Cdc512.Updated;
      ghost var before, done := db.Value(), db.trace;
      var context := new Cdc512.Hash();
      var digest := context.Flush(block);
      assert digest == CDC.block(Pad(chunk));
      st, lost := UpdateBlockDigest(id, no, digest);
      ghost var first, del := if lost then [] else DigestStmts(before, id, no, digest), Stmt.BlockDeleteAbove(id, no);
      assert OneBlockStmtsWith(before, CDC, id, no, chunk, lost) == first + [del];
      if st.Stopped? {
        db.RanPart(before, done, first, [del]);
      } else {
        st := db.BlockDeleteAbove(id, no);
        db.RanOne(Exec(before, first), done + first, del, st);
        db.RanThen(before, done, first, [del], st);
      }
    }

    /** Blocks are lost only where an INSERT can be. */
    ghost predicate Losable(lost: seq<bool>) {
      !db.CanLose() ==> forall n :: !LostAt(lost, n)
    }

    /** The first `n` blocks are written except those `lost`, and the file context has taken in as many. */
    ghost predicate Written(file: Cdc512.Hash, before: Db, done: seq<Stmt>, id: nat, chunks: seq<Bytes>, n: nat, lost: seq<bool>)
      requires n <= |chunks|
      reads db, file
    {
      && db.Valid() && file.Valid() && |lost| == n && Losable(lost)
      && db.RanAll(before, done, BlockStmtsWith(before, CDC, id, chunks[..n], 0, lost), Done)
      && Cdc512.Feed(file.Value(), PadAll(chunks)[n..]) == Cdc512.Feed(Cdc512.START, PadAll(chunks))
    }

    lemma AllWritten(file: Cdc512.Hash, before: Db, done: seq<Stmt>, id: nat, chunks: seq<Bytes>, lost: seq<bool>)
      requires Written(file, before, done, id, chunks, |chunks|, lost)
      ensures db.RanAll(before, done, BlockStmtsWith(before, CDC, id, chunks, 0, lost), Done)
      ensures file.Value() == Cdc512.Feed(Cdc512.START, PadAll(chunks))
    {
      hide BlockStmtsWith;
      assert chunks[..|chunks|] == chunks && PadAll(chunks)[|chunks|..] == [];
    }

    lemma OneMoreLosable(lost: seq<bool>, b: bool)
      requires Losable(lost) && (b ==> db.CanLose())
      ensures Losable(lost + [b])
    {
      assert forall n :: LostAt(lost + [b], n) ==> LostAt(lost, n) || (n == |lost| && b);
    }

    method UpdateBlock(file: Cdc512.Hash, id: nat, no: nat, block: Bytes,
                       ghost before: Db, ghost done: seq<Stmt>, ghost chunks: seq<Bytes>, ghost lost: seq<bool>)
      returns (st: Status, ghost lost': seq<bool>)
      requires 0 < no <= |chunks| && block == Pad(chunks[no - 1]) && Written(file, before, done, id, chunks, no - 1, lost)
      modifies db, file
      ensures st.Done? ==> Written(file, before, done, id, chunks, no, lost')
      ensures st.Stopped? ==> db.Valid() && file.Valid() && Losable(lost') &&
                              db.RanAll(before, done, BlockStmtsWith(before, CDC, id, chunks, 0, lost'), Stopped)
    {
      hide Cdc512.Updated; hide OneBlockStmtsWith; hide BlockStmtsWith; hide Pad; hide Exec; hide Losable; hide LostAt;
      ghost var from := db.Value();
      ghost var some := BlockStmtsWith(before, CDC, id, chunks[..no - 1], 0, lost);
      ghost var b;
      st, b := StoreBlock(id, no, block, chunks[no - 1]);
      lost' := lost + [b];
      OneMoreLosable(lost, b);
      NextBlockWith(before, CDC, id, chunks, 0, no - 1, lost, b);
      ghost var one := OneBlockStmtsWith(from, CDC, id, no, chunks[no - 1], b);
      db.RanThen(before, done, some, one, st);
      if st.Stopped? {
        Prefixed(before, done, some + one, BlockStmtsWith(before, CDC, id, chunks, 0, lost'));
      } else {
        file.Update(block);
        assert PadAll(chunks)[no - 1..][0] == block && PadAll(chunks)[no - 1..][1..] == PadAll(chunks)[no..];
      }
    }

    lemma Prefixed(before: Db, done: seq<Stmt>, a: seq<Stmt>, all: seq<Stmt>)
      requires a <= all && db.RanAll(before, done, a, Stopped)
      ensures db.RanAll(before, done, all, Stopped)
    {
      assert all == a + all[|a|..];
      db.RanPart(before, done, a, all[|a|..]);
    }

    method UpdateBlocks(file: Cdc512.Hash, f: Node, id: nat) returns (st: Status, ok: bool, ghost lost: seq<bool>)
      requires db.Valid() && Readable(f) && file.Valid() && file.Value() == Cdc512.START
      modifies db, file
      ensures db.Valid() && file.Valid() && Losable(lost)
      ensures db.RanAll(old(db.Value()), old(db.trace), BlockStmtsWith(old(db.Value()), CDC, id, Delivered(f), 0, lost), st)
      ensures st.Done? ==> ok == f.io.ReadsToEnd? && file.Value() == Cdc512.Feed(Cdc512.START, PadAll(Delivered(f)))
    {
      hide BlockStmtsWith; hide Pad; hide Exec; hide Cdc512.Feed; hide PadAll;
      ghost var before, done, chunks := db.Value(), db.trace, Delivered(f);
      lost := [];
      NothingWritten(file, chunks, id);
      if f.io.OpenFails? {
        AllWritten(file, before, done, id, chunks, lost);
        return Done, false, lost;
      }
      var buf := new bv8[BLOCK_SIZE](_ => 0);
      var no := 0;
      while true
        invariant no <= |chunks| && buf.Length == BLOCK_SIZE
        invariant Written(file, before, done, id, chunks, no, lost)
        decreases |chunks| - no
      {
        no := no + 1;
        var r := ReadPadded(f, no - 1, buf);
        if r == -1 {
          AllWritten(file, before, done, id, chunks, lost);
          return Done, false, lost;
        }
        if r == 0 {
          AllWritten(file, before, done, id, chunks, lost);
          return Done, true, lost;
        }
        st, lost := UpdateBlock(file, id, no, buf[..], before, done, chunks, lost);
        if st.Stopped? {
          return st, false, lost;
        }
      }
    }

    lemma NothingWritten(file: Cdc512.Hash, chunks: seq<Bytes>, id: nat)
      requires db.Valid() && file.Valid() && file.Value() == Cdc512.START
      ensures Written(file, db.Value(), db.trace, id, chunks, 0, [])
    {
      hide Cdc512.Feed;
      db.RanNone(db.Value(), db.trace);
      assert PadAll(chunks)[0..] == PadAll(chunks) && chunks[..0] == [];
    }

    /** `update_blocks`, and the file's own statement if it succeeded. */
    method UpdateFile(f: Node, id: nat) returns (st: Status, ghost lost: seq<bool>)
      requires db.Valid() && Readable(f)
      modifies db
      ensures db.Valid() && Losable(lost)
      ensures db.RanAll(old(db.Value()), old(db.trace), FileStmtsWith(old(db.Value()), CDC, id, f, lost), st)
    {
      hide Cdc512.DigestOf; hide Cdc512.Finished; hide Cdc512.Updated; hide Cdc512.Feed; hide BlockStmtsWith; hide Exec; hide PadAll; hide Losable;
      ghost var before, done := db.Value(), db.trace;
      var context := new Cdc512.Hash();
      var ok;
      st, ok, lost := UpdateBlocks(context, f, id);
      ghost var write := BlockStmtsWith(before, CDC, id, Delivered(f), 0, lost);
      if st.Stopped? {
        db.RanPart(before, done, write, if f.io.ReadsToEnd? then [Stmt.Finish(id, f.ver.mtime, CDC.file(PadAll(f.ver.chunks)))] else []);
      } else if ok {
        context.Finish();
        var digest := context.DigestBytes();
        assert digest == CDC.file(PadAll(f.ver.chunks));
        st := db.Finish(id, f.ver.mtime, digest);
        db.RanOne(Exec(before, write), done + write, Stmt.Finish(id, f.ver.mtime, digest), st);
        db.RanThen(before, done, write, [Stmt.Finish(id, f.ver.mtime, digest)], st);
      } else {
        assert write + [] == write;
      }
    }

    /** Selects the entry, then touches it or inserts it, updating it only after a conflict. */
    method WriteEntry(c: Cols, mtime: nat) returns (st: Status, id: nat, mtim: nat, ghost fate: Fate)
      requires db.Valid()
      modifies db
      ensures db.Valid() && !fate.Unseen? && (fate.Dropped? ==> db.CanLose())
      ensures db.RanAll(old(db.Value()), old(db.trace), EntryStmtsWith(old(db.Value()), Cfg(), c, mtime, fate), st)
      ensures st.Done? ==> mtim == OldTime(old(db.Value()), c)
      ensures st.Done? ==> var f := Find(old(db.Value()), c.parent, c.name); id == if f.Some? then f.value else 0
    {
      hide Exec; hide EntryStmts;
      ghost var before, done := db.Value(), db.trace;
      fate := Kept;
      st, id, mtim := db.Select(c.parent, c.name);
      if st.Stopped? {
        return;
      }
      if modifiedOnly && id != 0 && (mtim == mtime || mtime == 0) {
        st := db.Touch(id);
        db.RanOne(before, done, Stmt.Touch(id), st);
        EntryIs(before, Cfg(), c, mtime);
      } else {
        ghost var ins := Stmt.Insert(db.rowids(db.entries.Keys), c);
        var conflict;
        ghost var lost;
        st, conflict, lost := db.Insert(c);
        fate := if lost then Dropped else Kept;
        EntryIs(before, Cfg(), c, mtime);
        if lost {
          db.RanNone(before, done);
        } else {
          db.RanOne(before, done, ins, st);
          if st.Stopped? {
            db.RanPart(before, done, [ins], [Stmt.Update(c)]);
          }
        }
        if st.Done? && conflict {
          st := db.Update(c);
          db.RanOne(Exec(before, [ins]), done + [ins], Stmt.Update(c), st);
          db.RanThen(before, done, [ins], [Stmt.Update(c)], st);
        }
      }
    }

    lemma EntryIs(before: Db, cfg: Config, c: Cols, mtime: nat)
      ensures var f, ins := Find(before, c.parent, c.name), Stmt.Insert(cfg.rowids(before.entries.Keys), c);
              EntryStmts(before, cfg, c, mtime) ==
                if OnlyTouched(before, cfg, c, mtime) then [Stmt.Touch(f.value)]
                else if f.Some? then [ins] + [Stmt.Update(c)]
                else [ins]
    {
    }

    /** A new entry is looked up again for its rowid; if that fails the pass goes on with rowid 0. */
    method UpdateEntry(c: Cols, mtime: nat) returns (st: Status, id: nat, mtim: nat, ghost fate: Fate)
      requires db.Valid()
      modifies db
      ensures db.Valid() && (!fate.Kept? ==> db.CanLose())
      ensures db.RanAll(old(db.Value()), old(db.trace), EntryStmtsWith(old(db.Value()), Cfg(), c, mtime, fate), st)
      ensures st.Done? ==> id == EntryIdWith(old(db.Value()), Cfg(), c, fate) && mtim == OldTime(old(db.Value()), c)
    {
      ghost var before, done := db.Value(), db.trace;
      st, id, mtim, fate := WriteEntry(c, mtime);
      if st.Done? && id == 0 {
        hide Exec; hide Apply;
        if fate.Kept? {
          FoundAfterInsert(before, db.rowids(before.entries.Keys), c);
        } else {
          ExecOfNone(before);
        }
        ghost var ss := EntryStmtsWith(before, Cfg(), c, mtime, fate);
        ghost var unseen;
        st, id, unseen := db.Reread(c.parent, c.name);
        if st.Stopped? {
          assert db.trace == done + ss;
        } else if unseen && fate.Kept? {
          fate := Unseen;
        }
      }
    }

    lemma ExecOfNone(db: Db)
      ensures Exec(db, []) == db
    {
    }

    /** The row of the directory the entry was found in: cached, or the root's, brought up to date now. */
    method ParentEntry(v: Visit) returns (st: Status, parent: nat, ghost fate: Fate)
      requires db.Valid()
      modifies this`parents, db
      ensures db.Valid() && (!fate.Kept? ==> db.CanLose())
      ensures var l := Loss(fate, Kept, []);
              && db.RanAll(old(db.Value()), old(db.trace), ParentStmtsWith(old(db.Value()), Cfg(), old(parents), v, l), st)
              && (st.Done? ==> parent == ParentIdWith(old(db.Value()), Cfg(), old(parents), v, l) && parents == Emplace(old(parents), v.dir, parent))
    {
      hide EntryStmtsWith; hide EntryIdWith; hide OldTime;
      fate := Kept;
      if v.dir in parents {
        db.RanNone(db.Value(), db.trace);
        return Done, parents[v.dir], fate;
      }
      var unused;
      st, parent, unused, fate := UpdateEntry(Cols(0, if v.dir == [] then "" else v.dir[0], true, 0, 0), 0);
      if st.Done? {
        parents := parents[v.dir := parent];
      }
    }

    /** The entry's own row and, for a file that is new or modified, its digests. */
    method UpdateNode(parent: nat, n: Node) returns (st: Status, id: nat, ghost l: Loss)
      requires db.Valid() && (n.File? ==> Readable(n))
      modifies db
      ensures db.Valid() && l.root.Kept? && (!l.entry.Kept? ==> db.CanLose()) && Losable(l.blocks)
      ensures db.RanAll(old(db.Value()), old(db.trace), NodeStmtsWith(old(db.Value()), Cfg(), parent, n, l), st)
      ensures st.Done? ==> id == EntryIdWith(old(db.Value()), Cfg(), NodeCols(parent, n), l.entry)
    {
      hide EntryStmtsWith; hide EntryIdWith; hide OldTime; hide FileStmtsWith; hide Exec;
      ghost var before, done := db.Value(), db.trace;
      var mtim;
      ghost var fate;
      st, id, mtim, fate := UpdateEntry(Cols(parent, n.name, n.Dir?, n.ver.size, 4096), n.ver.mtime);
      l := Loss(Kept, fate, []);
      ghost var entry := EntryStmtsWith(before, Cfg(), NodeCols(parent, n), n.ver.mtime, fate);
      if st.Stopped? {
        Prefixed(before, done, entry, NodeStmtsWith(before, Cfg(), parent, n, l));
      } else if n.File? && (!modifiedOnly || mtim != n.ver.mtime) {
        ghost var blocks;
        st, blocks := UpdateFile(n, id);
        l := Loss(Kept, fate, blocks);
        db.RanThen(before, done, entry, FileStmtsWith(Exec(before, entry), CDC, id, n, blocks), st);
      } else {
        assert entry + [] == entry;
      }
    }

    /** Something is lost only where the connection can lose it. */
    ghost predicate LosableAll(ls: seq<Loss>) {
      !db.CanLose() ==> AllClean(ls)
    }

    /** The callback for one entry; it throws when the entry's directory is not in `parents`. */
    method Manipulate(v: Visit) returns (st: Status, threw: bool, ghost l: Loss)
      requires db.Valid() && (v.node.File? ==> Readable(v.node))
      modifies this`parents, db
      ensures db.Valid() && (!db.CanLose() ==> Clean(l))
      ensures var m := ManipulateWith(old(db.Value()), Cfg(), old(parents), v, l);
              && db.RanAll(old(db.Value()), old(db.trace), m.stmts, st)
              && (st.Done? ==> parents == m.cache && threw == m.threw)
    {
      hide EntryIdWith; hide Exec; hide NodeStmtsWith; hide EntryStmtsWith;
      ghost var before, done := db.Value(), db.trace;
      l, threw := NONE, false;
      if !v.node.accessible {
        db.RanNone(before, done);
        return Done, false, l;
      }
      if v.dir !in parents && v.level > 1 {
        db.RanNone(before, done);
        return Done, true, l;
      }
      ghost var cache := parents;
      var parent, id;
      ghost var fate, node;
      st, parent, fate := ParentEntry(v);
      l := Loss(fate, Kept, []);
      ghost var first := ParentStmtsWith(before, Cfg(), cache, v, l);
      if st.Stopped? {
        Prefixed(before, done, first, ManipulateWith(before, Cfg(), cache, v, l).stmts);
        return;
      }
      st, id, node := UpdateNode(parent, v.node);
      l := Loss(fate, node.entry, node.blocks);
      RootApart(Exec(before, first), Cfg(), parent, v.node, node, l);
      db.RanThen(before, done, first, NodeStmtsWith(Exec(before, first), Cfg(), parent, v.node, l), st);
      if st.Done? && v.node.Dir? && v.FullPath() !in parents {
        parents := parents[v.FullPath() := id];
      }
    }

    /** The statements of the entry do not depend on what became of the root's row. */
    lemma RootApart(from: Db, cfg: Config, parent: nat, n: Node, a: Loss, b: Loss)
      requires a.entry == b.entry && a.blocks == b.blocks
      ensures NodeStmtsWith(from, cfg, parent, n, a) == NodeStmtsWith(from, cfg, parent, n, b)
    {
      hide FileStmtsWith; hide EntryStmtsWith; hide Exec;
    }

    /** The visits `vs[..i]` have been handled, losing `ls`, by the statements that ran since `done`. */
    ghost predicate Scanned(before: Db, done: seq<Stmt>, vs: seq<Visit>, i: nat, ls: seq<Loss>)
      requires i <= |vs|
      reads this`parents, db
    {
      var scan := ScanWith(before, Cfg(), map[], vs[..i], ls);
      db.Valid() && |ls| == i && LosableAll(ls) && !scan.threw && parents == scan.cache && db.RanAll(before, done, scan.stmts, Done)
    }

    /** The pass has stopped part way through the statements of the scan of `vs`. */
    ghost predicate Cut(before: Db, done: seq<Stmt>, vs: seq<Visit>, ls: seq<Loss>)
      reads db
    {
      db.Valid() && LosableAll(ls) && done <= db.trace <= done + ScanWith(before, Cfg(), map[], vs, ls).stmts
    }

    method Callback(v: Visit, ghost vs: seq<Visit>, ghost i: nat, ghost before: Db, ghost done: seq<Stmt>, ghost ls: seq<Loss>)
      returns (st: Status, ghost ls': seq<Loss>)
      requires i < |vs| && v == vs[i] && Scanned(before, done, vs, i, ls) && (v.node.File? ==> Readable(v.node))
      modifies this`parents, db
      ensures st.Done? ==> Scanned(before, done, vs, i + 1, ls')
      ensures st.Stopped? ==> Cut(before, done, vs, ls') && (db.CanFail() || ScanWith(before, Cfg(), map[], vs, ls').threw)
    {
      hide ManipulateWith; hide ScanWith; hide Exec; hide Clean;
      ghost var ran := ScanWith(before, Cfg(), map[], vs[..i], ls).stmts;
      ghost var from, cache := db.Value(), parents;
      var threw;
      ghost var l;
      st, threw, l := Manipulate(v);
      ls' := ls + [l];
      ghost var m := ManipulateWith(from, Cfg(), cache, v, l);
      ScanNext(before, Cfg(), vs, i, ls, l);
      db.RanThen(before, done, ran, m.stmts, st);
      if st.Done? && threw {
        st := Stopped;
      }
    }

    lemma NothingScanned(vs: seq<Visit>)
      requires db.Valid() && parents == map[]
      ensures Scanned(db.Value(), db.trace, vs, 0, [])
    {
      db.RanNone(db.Value(), db.trace);
    }

    lemma ScannedIsCut(before: Db, done: seq<Stmt>, vs: seq<Visit>, i: nat, ls: seq<Loss>)
      requires i <= |vs| && Scanned(before, done, vs, i, ls)
      ensures Cut(before, done, vs, ls)
    {
      hide ManipulateWith; hide Exec;
      assert vs == vs[..i] + vs[i..];
      ScanConcat(before, Cfg(), map[], vs[..i], vs[i..], ls);
    }

    /** The traversal by itself: the calls it makes, whether they are all there are, and whether it throws. */
    method Entries(root: string, world: Reader.World, ghost vs: seq<Visit>) returns (calls: seq<Visit>, whole: bool, threw: bool)
      requires Reader.Lists(world, world.list([root]), [root]) && vs == Preorder(world.list([root]), [root], IndexerOptions())
      ensures calls <= vs && (whole ==> calls == vs && !threw) && (!whole ==> !Smooth(world))
      ensures !whole && !threw && (forall k :: 0 <= k < |calls| ==> world.reacts(k).Continues?) ==> MayEndEarly(world, |calls|)
    {
      hide Preorder; hide Reader.Lists;
      var handles := new Reader.Handles();
      var reader := new Reader.DirectoryReader(world, IndexerOptions(), handles);
      var exit := reader.Read(root);
      calls, whole, threw := reader.calls, exit.Returned? && !reader.abort, exit.Threw?;
    }

    /** The traversal with its callbacks: `over` says whether the whole tree was reported. */
    method ReadTree(root: string, world: Reader.World, ghost vs: seq<Visit>, ghost before: Db, ghost done: seq<Stmt>)
      returns (st: Status, over: bool, ghost i: nat, ghost ls: seq<Loss>)
      requires Reader.Lists(world, world.list([root]), [root]) && ValidTree(world.list([root]))
      requires vs == Preorder(world.list([root]), [root], IndexerOptions()) && Scanned(before, done, vs, 0, [])
      modifies this`parents, db
      ensures i <= |vs| && (st.Done? ==> Scanned(before, done, vs, i, ls) && (over ==> i == |vs|))
      ensures st.Stopped? ==> Cut(before, done, vs, ls)
      ensures LosableAll(ls)
      ensures st.Done? && !over ==> MayEndEarly(world, i)
      ensures st.Stopped? || !over ==> !Smooth(world) || db.CanFail() || ScanWith(before, Cfg(), map[], vs, ls).threw
    {
      hide ManipulateWith; hide ScanWith; hide Preorder; hide Reader.Lists; hide Smooth;
      var calls, whole, threw := Entries(root, world, vs);
      var n := 0;
      i, ls := 0, [];
      while n < |calls| && world.reacts(n).Continues?
        invariant n == i <= |calls| && calls <= vs && Scanned(before, done, vs, i, ls)
        invariant forall k :: 0 <= k < n ==> world.reacts(k).Continues?
      {
        FileReadable(world.list([root]), [root], vs, calls[n]);
        st, ls := Callback(calls[n], vs, i, before, done, ls);
        if st.Stopped? {
          return st, false, i, ls;
        }
        n, i := n + 1, i + 1;
      }
      over := whole && n == |calls|;
      if n < |calls| {
        NotSmooth(world, n);
      }
      if threw || (n < |calls| && world.reacts(n).Throws?) {
        ScannedIsCut(before, done, vs, i, ls);
        st := Stopped;
      } else {
        st := Done;
      }
    }

    lemma FileReadable(kids: seq<Node>, dir: Path, vs: seq<Visit>, v: Visit)
      requires ValidTree(kids) && vs == Preorder(kids, dir, IndexerOptions()) && v in vs
      ensures v.node.File? ==> Readable(v.node)
    {
      if v.node.File? {
        PreorderReadable(kids, dir, IndexerOptions(), v);
      }
    }

    /** What a pass that was cut off has done is a run that was cut off. */
    lemma CutIsRun(before: Db, done: seq<Stmt>, run: Run, ls: seq<Loss>)
      requires Cut(before, done, run.Visits(), ls) && run.cfg == Cfg() && run.end == CutAfter(|db.trace| - |done|)
      ensures db.trace == done + RunStmtsWith(before, run, ls)
    {
      hide ManipulateWith; hide ScanWith; hide Preorder;
      var all := ScanWith(before, Cfg(), map[], run.Visits(), ls).stmts;
      assert run.Reached() == run.Visits();
      assert db.trace == done + db.trace[|done|..];
      assert db.trace[|done|..] == (done + all)[|done|..|db.trace|] == all[..|db.trace| - |done|];
    }

    /** The scan of `vs[..i]` and what the sweep committed. */
    lemma ClosedIsRun(before: Db, vs: seq<Visit>, i: nat, run: Run, ls: seq<Loss>)
      requires i <= |vs| && vs == run.Visits() && run.cfg == Cfg() && !run.end.CutAfter?
      requires if run.end.Completes? then i == |vs| else run.end.visits == i
      requires !ScanWith(before, Cfg(), map[], vs[..i], ls).threw
      ensures RunStmtsWith(before, run, ls) == ScanWith(before, Cfg(), map[], vs[..i], ls).stmts + [run.Closing()]
    {
      hide ManipulateWith; hide ScanWith; hide Preorder;
      assert vs[..|vs|] == vs;
    }

    /** The tables are what the statements since `done` make of `before`. */
    lemma TraceTells(before: Db, done: seq<Stmt>, ss: seq<Stmt>)
      requires db.Valid() && before == Exec(db.origin, done) && db.trace == done + ss
      ensures db.Value() == Exec(before, ss)
    {
      ExecConcat(db.origin, done, ss);
    }

    /** The sweep, or what a failure in it leaves: `end` says which. */
    method Cleanup(ghost before: Db, ghost done: seq<Stmt>, ghost run: Run, ghost i: nat, ghost ls: seq<Loss>)
      returns (st: Status, ghost end: End)
      requires i <= |run.Visits()| && Scanned(before, done, run.Visits(), i, ls) && run.cfg == Cfg()
      requires run.end == StopsEarlyAndSweeps(i) || (run.end.Completes? && i == |run.Visits()|)
      modifies db
      ensures db.Valid() && db.trace == done + RunStmtsWith(before, run.(end := end), ls)
      ensures if st.Done? then end == run.end else !run.(end := end).Sweeps() && db.CanFail()
    {
      hide ManipulateWith; hide ScanWith; hide Preorder; hide Exec; hide Apply; hide RunStmtsWith; hide Clean;
      ScannedIsCut(before, done, run.Visits(), i, ls);
      ghost var scan := ScanWith(before, Cfg(), map[], run.Visits()[..i], ls).stmts;
      ghost var part;
      st, part := db.CleanupEntries();
      end := if st.Done? then run.end else if part.Some? then SweepFails(i, part.value.SweepRows?) else CutAfter(|db.trace| - |done|);
      if part.None? {
        CutIsRun(before, done, run.(end := end), ls);
      } else {
        ClosedIsRun(before, run.Visits(), i, run.(end := end), ls);
        assert done + scan + [part.value] == done + (scan + [part.value]);
      }
    }

    /** What ran is what a run of module Pass runs, as long as nothing was lost. */
    ghost predicate RanAs(before: Db, done: seq<Stmt>, run: Run, ls: seq<Loss>)
      reads db
    {
      && db.trace == done + RunStmtsWith(before, run, ls) && db.Value() == AfterRunWith(before, run, ls)
      && (AllClean(ls) ==> db.trace == done + RunStmts(before, run) && db.Value() == AfterRun(before, run))
    }

    /**
     * A pass. Whatever fails and whenever it is stopped, the statements it ran are those of a run
     * that loses what the connection lost. If it lost nothing, the run is one of those that the
     * theorems about histories quantify over.
     */
    method Reindex(root: string, world: Reader.World) returns (st: Status, ghost end: End, ghost losses: seq<Loss>)
      requires db.Valid() && Reader.Lists(world, world.list([root]), [root]) && ValidTree(world.list([root]))
      modifies this`parents, db
      ensures db.Valid()
      ensures RanAs(old(db.Value()), old(db.trace), Run(Cfg(), root, world.list([root]), end), losses)
      ensures !db.CanLose() ==> AllClean(losses)
      ensures st.Done? <==> Run(Cfg(), root, world.list([root]), end).Sweeps()
      ensures end.StopsEarlyAndSweeps? ==> MayEndEarly(world, end.visits)
      ensures Smooth(world) && !db.CanFail() ==>
                end.Completes? || ScanAll(old(db.Value()), Cfg(), map[], Preorder(world.list([root]), [root], IndexerOptions())).threw
    {
      hide ManipulateWith; hide ScanWith; hide Preorder; hide Exec; hide RunStmtsWith; hide RunStmts; hide AllClean; hide ScanAll;
      ghost var before, done := db.Value(), db.trace;
      ghost var vs := Preorder(world.list([root]), [root], IndexerOptions());
      parents := map[];
      NothingScanned(vs);
      var over;
      ghost var i;
      st, over, i, losses := ReadTree(root, world, vs, before, done);
      end := if over then Completes else StopsEarlyAndSweeps(i);
      if st.Done? {
        st, end := Cleanup(before, done, Run(Cfg(), root, world.list([root]), end), i, losses);
      } else {
        end := CutAfter(|db.trace| - |done|);
        CutIsRun(before, done, Run(Cfg(), root, world.list([root]), end), losses);
      }
      ghost var run := Run(Cfg(), root, world.list([root]), end);
      TraceTells(before, done, RunStmtsWith(before, run, losses));
      if AllClean(losses) {
        NothingLost(before, run, losses);
        ScanClean(before, Cfg(), map[], vs, losses);
      }
    }
  }
}
