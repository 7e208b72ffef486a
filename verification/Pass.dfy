/**
 * One pass of `directory_indexer::reindex` as the exact sequence of SQL statements it issues.
 *
 * The scan is not a transaction, so the pass can stop after any prefix of the sequence; the closing
 * sweep is one, and takes effect as a whole, in part if a statement of it throws, or not at all.
 */
module Pass {
  import opened Common
  import opened Tree
  import opened Store

  /** The digest of one padded block and of a whole file given by its padded blocks. */
  datatype Hasher = Hasher(block: Bytes -> Bytes, file: seq<Bytes> -> Bytes)

  /** `rowids` picks the rowid of a new row from the rowids in use. */
  datatype Config = Config(modifiedOnly: bool, rowids: set<nat> -> nat, hash: Hasher)

  ghost predicate FreshIds(rowids: set<nat> -> nat) {
    forall used :: rowids(used) != 0 && rowids(used) !in used
  }

  // ---------------------------------------------------------------- update_entry

  /** The row the pass finds already there is left as it is, apart from its mark. */
  ghost predicate OnlyTouched(db: Db, cfg: Config, c: Cols, mtime: nat) {
    var f := Find(db, c.parent, c.name);
    cfg.modifiedOnly && f.Some? && (ReadTime(db.entries[f.value]) == mtime || mtime == 0)
  }

  ghost function EntryStmts(db: Db, cfg: Config, c: Cols, mtime: nat): seq<Stmt> {
    var f := Find(db, c.parent, c.name);
    if OnlyTouched(db, cfg, c, mtime) then [Touch(f.value)]
    else if f.Some? then [Insert(cfg.rowids(db.entries.Keys), c), Update(c)]
    else [Insert(cfg.rowids(db.entries.Keys), c)]
  }

  ghost function EntryId(db: Db, cfg: Config, c: Cols): nat {
    var f := Find(db, c.parent, c.name);
    if f.Some? then f.value else cfg.rowids(db.entries.Keys)
  }

  /** The time the entry had before this pass, zero if it is new. */
  ghost function OldTime(db: Db, c: Cols): nat {
    var f := Find(db, c.parent, c.name);
    if f.Some? then ReadTime(db.entries[f.value]) else 0
  }

  ghost function EntryRow(db: Db, cfg: Config, c: Cols, mtime: nat): Row {
    var f := Find(db, c.parent, c.name);
    if OnlyTouched(db, cfg, c, mtime) then db.entries[f.value].(alive := false)
    else if f.Some? then UpdatedRow(db.entries[f.value], c)
    else InsertedRow(c)
  }

  // ---------------------------------------------------------------- update_blocks

  ghost function OneBlockStmts(db: Db, hash: Hasher, id: nat, no: nat, chunk: Bytes): seq<Stmt> {
    var d := hash.block(Pad(chunk));
    [BlockInsert(id, no, d)] +
    (if (id, no) in db.blocks then [BlockUpdate(id, no, d)] else []) +
    [BlockDeleteAbove(id, no)]
  }

  /** The statements for the chunks from index `n` on; block numbers start from one. */
  ghost function BlockStmts(db: Db, hash: Hasher, id: nat, chunks: seq<Bytes>, n: nat): seq<Stmt>
    requires n <= |chunks|
    decreases |chunks| - n
  {
    if n == |chunks| then []
    else
      var one := OneBlockStmts(db, hash, id, n + 1, chunks[n]);
      one + BlockStmts(Exec(db, one), hash, id, chunks, n + 1)
  }

  /** The chunks a read of the file delivers before it ends or fails. */
  function Delivered(f: Node): seq<Bytes>
    requires f.File?
  {
    match f.io
    case OpenFails => []
    case ReadFailsAfter(n) => if n <= |f.ver.chunks| then f.ver.chunks[..n] else f.ver.chunks
    case ReadsToEnd => f.ver.chunks
  }

  ghost function FileStmts(db: Db, hash: Hasher, id: nat, f: Node): seq<Stmt>
    requires f.File?
  {
    BlockStmts(db, hash, id, Delivered(f), 0) +
    (if f.io.ReadsToEnd? then [Finish(id, f.ver.mtime, hash.file(PadAll(f.ver.chunks)))] else [])
  }

  // ---------------------------------------------------------------- the manipulator

  /** The `parents` map: rowids of the directories reached so far. */
  type Cache = map<Path, nat>

  datatype Scan = Scan(stmts: seq<Stmt>, cache: Cache, threw: bool)

  function RootCols(dir: Path): Cols {
    Cols(0, if dir == [] then "" else dir[0], true, 0, 0)
  }

  function NodeCols(parent: nat, n: Node): Cols {
    Cols(parent, n.name, n.Dir?, n.ver.size, BLOCK_SIZE)
  }

  ghost function ParentStmts(db: Db, cfg: Config, cache: Cache, v: Visit): seq<Stmt> {
    if v.dir in cache then [] else EntryStmts(db, cfg, RootCols(v.dir), 0)
  }

  ghost function ParentId(db: Db, cfg: Config, cache: Cache, v: Visit): nat {
    if v.dir in cache then cache[v.dir] else EntryId(db, cfg, RootCols(v.dir))
  }

  /** The statements for the entry itself, once its parent row is known. */
  ghost function NodeStmts(db: Db, cfg: Config, parent: nat, n: Node): seq<Stmt> {
    var c := NodeCols(parent, n);
    var entry := EntryStmts(db, cfg, c, n.ver.mtime);
    entry + (if Rehashed(db, cfg, parent, n) then FileStmts(Exec(db, entry), cfg.hash, EntryId(db, cfg, c), n) else [])
  }

  ghost predicate Rehashed(db: Db, cfg: Config, parent: nat, n: Node) {
    n.File? && (!cfg.modifiedOnly || OldTime(db, NodeCols(parent, n)) != n.ver.mtime)
  }

  /** `emplace` keeps an existing binding. */
  function Emplace(cache: Cache, p: Path, id: nat): Cache {
    if p in cache then cache else cache[p := id]
  }

  ghost function Manipulate(db: Db, cfg: Config, cache: Cache, v: Visit): Scan {
    if !v.node.accessible then Scan([], cache, false)
    else if v.dir !in cache && v.level > 1 then Scan([], cache, true)
    else
      var s := ParentStmts(db, cfg, cache, v);
      var parent := ParentId(db, cfg, cache, v);
      var db1 := Exec(db, s);
      var withParent := Emplace(cache, v.dir, parent);
      Scan(s + NodeStmts(db1, cfg, parent, v.node),
           if v.node.Dir? then Emplace(withParent, v.FullPath(), EntryId(db1, cfg, NodeCols(parent, v.node))) else withParent,
           false)
  }

  ghost function ScanAll(db: Db, cfg: Config, cache: Cache, vs: seq<Visit>): Scan
    decreases |vs|
  {
    if vs == [] then Scan([], cache, false)
    else
      var m := Manipulate(db, cfg, cache, vs[0]);
      if m.threw then m
      else
        var rest := ScanAll(Exec(db, m.stmts), cfg, m.cache, vs[1..]);
        Scan(m.stmts + rest.stmts, rest.cache, rest.threw)
  }

  // ---------------------------------------------------------------- a pass

  /**
   * How a pass ends: it reports every entry and sweeps; the shutdown flag stops the reports after
   * some entries and the sweep still runs; after some entries, or all, the sweep throws and is
   * committed after its first DELETE or after both; or the pass throws or dies after some
   * statements, or in the sweep before anything of it is committed.
   */
  datatype End =
    | Completes
    | StopsEarlyAndSweeps(visits: nat)
    | SweepFails(visits: nat, rows: bool)
    | CutAfter(statements: nat)

  datatype Run = Run(cfg: Config, root: string, tree: seq<Node>, end: End) {
    function Visits(): seq<Visit> {
      Preorder(tree, [root], IndexerOptions())
    }

    function Reached(): seq<Visit> {
      if (end.StopsEarlyAndSweeps? || end.SweepFails?) && end.visits <= |Visits()| then Visits()[..end.visits] else Visits()
    }

    predicate Sweeps() {
      end.Completes? || end.StopsEarlyAndSweeps?
    }

    /** What `cleanup_entries` commits, if the pass gets there. */
    function Closing(): Stmt
      requires !end.CutAfter?
    {
      if Sweeps() then Sweep else if end.rows then SweepRows else SweepBlocks
    }

    ghost predicate Valid() {
      FreshIds(cfg.rowids) && ValidTree(tree)
    }
  }

  /** `reindex` runs the reader recursively, with directories reported and no mask. */
  function IndexerOptions(): Options {
    Options(true, true, 0, _ => true)
  }

  ghost function RunStmts(db: Db, run: Run): seq<Stmt> {
    var scan := ScanAll(db, run.cfg, map[], run.Reached());
    if run.end.CutAfter? && run.end.statements <= |scan.stmts| then scan.stmts[..run.end.statements]
    else if run.end.CutAfter? || scan.threw then scan.stmts
    else scan.stmts + [run.Closing()]
  }

  ghost function AfterRun(db: Db, run: Run): Db {
    Exec(db, RunStmts(db, run))
  }

  /** The tables after a whole history of passes, starting from the empty database. */
  ghost function AfterHistory(runs: seq<Run>): Db
    decreases |runs|
  {
    if runs == [] then EMPTY else AfterRun(AfterHistory(runs[..|runs| - 1]), runs[|runs| - 1])
  }

  /** `v` stands for the entry at the end of `trail`, under its own path. */
  ghost predicate StandsFor(v: Visit, trail: seq<Node>, run: Run) {
    LiesBelow(trail, run.tree) && v == Visit([run.root] + Names(trail[..|trail| - 1]), |trail|, trail[|trail| - 1])
  }

  /** A pass meets every entry of the tree, at any depth, and nothing else. */
  lemma VisitsWholeTree(run: Run, v: Visit)
    ensures v in run.Visits() <==> exists trail :: StandsFor(v, trail, run)
  {
    var opts := IndexerOptions();
    PreorderExactly(run.tree, [run.root], opts, v);
    if trail :| AdmittedAt(v, trail, run.tree, [run.root], opts) {
      NoLimitLeadsDown(trail, run.tree, [run.root], opts);
      assert StandsFor(v, trail, run);
    }
    if trail :| StandsFor(v, trail, run) {
      NoLimitLeadsDown(trail, run.tree, [run.root], opts);
      assert AdmittedAt(v, trail, run.tree, [run.root], opts);
    }
  }

  // ---------------------------------------------------------------- lemmas on statements

  /** `update_entry` has one effect, and no boundary in between shows anything else. */
  lemma EntryEffect(db: Db, cfg: Config, c: Cols, mtime: nat)
    requires FreshIds(cfg.rowids)
    ensures Exec(db, EntryStmts(db, cfg, c, mtime)) == Put(db, EntryId(db, cfg, c), EntryRow(db, cfg, c, mtime))
    ensures forall k :: 0 <= k <= |EntryStmts(db, cfg, c, mtime)| ==>
      Exec(db, EntryStmts(db, cfg, c, mtime)[..k]) in {db, Exec(db, EntryStmts(db, cfg, c, mtime))}
  {
    var ss := EntryStmts(db, cfg, c, mtime);
    forall k | 0 <= k <= |ss|
      ensures Exec(db, ss[..k]) in {db, Exec(db, ss)}
    {
      if k == |ss| {
        assert ss[..k] == ss;
      }
    }
    ExecFew(db, ss[0], if |ss| == 2 then ss[1] else ss[0], ss[0]);
    assert ss == if |ss| == 2 then [ss[0], ss[1]] else [ss[0]];
  }

  /** What is bound for a size: NULL for zero. */
  predicate SizeIs(column: Option<nat>, n: nat) {
    column == if n == 0 then None else Some(n)
  }

  /**
   * The columns under the key after `update_entry`: the time is as it was, NULL in a new row; a row
   * that is only touched keeps the rest, and any other row has what the entry says and no digest.
   */
  lemma EntryColumns(db: Db, cfg: Config, c: Cols, mtime: nat) returns (id: nat)
    requires FreshIds(cfg.rowids) && UniqueKeys(db)
    ensures var to := Exec(db, EntryStmts(db, cfg, c, mtime));
            && IsKey(to, id, c.parent, c.name) && (forall i :: IsKey(to, i, c.parent, c.name) ==> i == id)
            && (id in db.entries <==> exists i :: IsKey(db, i, c.parent, c.name))
            && to.entries.Keys == db.entries.Keys + {id} && to.blocks == db.blocks
            && (forall i :: i in db.entries && i != id ==> to.entries[i] == db.entries[i])
    ensures var row := Exec(db, EntryStmts(db, cfg, c, mtime)).entries[id];
            && row.mtime == (if id in db.entries then db.entries[id].mtime else None)
            && !row.alive
            && if id in db.entries && cfg.modifiedOnly && (mtime == 0 || db.entries[id].mtime == Some(mtime)) then
                 row == db.entries[id].(alive := false)
               else
                 row.isDir == c.isDir && SizeIs(row.size, c.fileSize) && SizeIs(row.blockSize, c.blockSize) && row.digest == None
  {
    id := EntryId(db, cfg, c);
    EntryEffect(db, cfg, c, mtime);
    hide Exec;
    var to := Exec(db, EntryStmts(db, cfg, c, mtime));
    forall i | IsKey(to, i, c.parent, c.name)
      ensures i == id
    {
      assert i != id ==> IsKey(db, i, c.parent, c.name);
      assert i != id && id in db.entries ==> SameKey(db, i, id);
    }
  }

  /** The block rows of `id` are exactly the digests of the first `n` chunks, numbered from one. */
  ghost predicate BlocksAre(hash: Hasher, db: Db, id: nat, chunks: seq<Bytes>, n: nat)
    requires n <= |chunks|
  {
    && (forall no: nat :: (id, no) in db.blocks <==> 1 <= no <= n)
    && (forall no: nat :: 1 <= no <= n && (id, no) in db.blocks ==> db.blocks[(id, no)] == hash.block(Pad(chunks[no - 1])))
  }

  /** One block is three statements at most, and shows three states at most. */
  lemma OneBlockStates(db: Db, hash: Hasher, id: nat, no: nat, chunk: Bytes)
    ensures var ss := OneBlockStmts(db, hash, id, no, chunk);
            var written := db.(blocks := db.blocks[(id, no) := hash.block(Pad(chunk))]);
            && Exec(db, ss) == Apply(written, BlockDeleteAbove(id, no))
            && (forall k :: 0 <= k <= |ss| ==> Exec(db, ss[..k]) in {db, written, Exec(db, ss)})
  {
    var ss := OneBlockStmts(db, hash, id, no, chunk);
    var d := hash.block(Pad(chunk));
    var ins, upd, del := BlockInsert(id, no, d), BlockUpdate(id, no, d), BlockDeleteAbove(id, no);
    var written := db.(blocks := db.blocks[(id, no) := d]);
    ExecFew(db, ins, upd, del);
    ExecFew(db, ins, del, del);
    assert ss == if (id, no) in db.blocks then [ins, upd, del] else [ins, del];
    assert Apply(Apply(db, ins), upd) == written;
    forall k | 0 <= k <= |ss|
      ensures Exec(db, ss[..k]) in {db, written, Exec(db, ss)}
    {
      if k == |ss| {
        assert ss[..k] == ss;
      } else if k == 0 {
        assert ss[..k] == [];
      } else if k == 1 {
        assert ss[..k] == [ins];
      } else {
        assert ss[..k] == [ins, upd];
      }
    }
  }

  lemma BlockWritten(db: Db, hash: Hasher, id: nat, chunks: seq<Bytes>, n: nat)
    requires BlocksOwned(db) && n < |chunks| && (n == 0 || BlocksAre(hash, db, id, chunks, n))
    ensures var written := db.(blocks := db.blocks[(id, n + 1) := hash.block(Pad(chunks[n]))]);
            var final := Apply(written, BlockDeleteAbove(id, n + 1));
            && BlocksOnly(db, written, id)
            && BlocksOnly(db, final, id)
            && BlocksAre(hash, final, id, chunks, n + 1)
  {
    hide Pad;
    var written := db.(blocks := db.blocks[(id, n + 1) := hash.block(Pad(chunks[n]))]);
    var final := Apply(written, BlockDeleteAbove(id, n + 1));
    forall no: nat
      ensures (id, no) in final.blocks <==> 1 <= no <= n + 1
    {
      if 1 <= no <= n {
        assert (id, no) in db.blocks;
      }
    }
  }

  lemma OneBlockEffect(db: Db, hash: Hasher, id: nat, chunks: seq<Bytes>, n: nat)
    requires BlocksOwned(db) && n < |chunks| && (n == 0 || BlocksAre(hash, db, id, chunks, n))
    ensures var ss := OneBlockStmts(db, hash, id, n + 1, chunks[n]);
            && BlocksAre(hash, Exec(db, ss), id, chunks, n + 1)
            && BlocksOnly(db, Exec(db, ss), id)
            && BlocksOnlyAlong(db, ss, id)
  {
    OneBlockStates(db, hash, id, n + 1, chunks[n]);
    BlockWritten(db, hash, id, chunks, n);
    var ss := OneBlockStmts(db, hash, id, n + 1, chunks[n]);
    assert ss[..|ss|] == ss;
  }

  lemma NextBlocks(db: Db, hash: Hasher, id: nat, chunks: seq<Bytes>, n: nat)
    requires n <= |chunks|
    ensures n == |chunks| ==> BlockStmts(db, hash, id, chunks, n) == []
    ensures n < |chunks| ==>
              var one := OneBlockStmts(db, hash, id, n + 1, chunks[n]);
              BlockStmts(db, hash, id, chunks, n) == one + BlockStmts(Exec(db, one), hash, id, chunks, n + 1)
  {
    hide OneBlockStmts; hide Exec;
  }

  lemma NothingAlong(db: Db, id: nat)
    ensures BlocksOnlyAlong(db, [], id) && Exec(db, []) == db
  {
    var none: seq<Stmt> := [];
    assert forall k :: 0 <= k <= |none| ==> none[..k] == [];
  }

  lemma StillOwned(from: Db, to: Db, id: nat)
    ensures BlocksOwned(from) && id in from.entries && BlocksOnly(from, to, id) ==> BlocksOwned(to) && id in to.entries
  {
    if BlocksOwned(from) && id in from.entries && BlocksOnly(from, to, id) {
      forall k | k in to.blocks
        ensures k.0 in to.entries && k.1 >= 1
      {
        assert k.0 != id ==> k in from.blocks;
      }
    }
  }

  /** The statements `ss` write the chunks from index `n` on, all of them in the end, and touch only rows of `id`. */
  ghost predicate Writes(db: Db, ss: seq<Stmt>, hash: Hasher, id: nat, chunks: seq<Bytes>, n: nat)
    requires n <= |chunks|
  {
    && (n < |chunks| ==> BlocksAre(hash, Exec(db, ss), id, chunks, |chunks|))
    && BlocksOnlyAlong(db, ss, id)
  }

  lemma WritesOne(db: Db, hash: Hasher, id: nat, chunks: seq<Bytes>, n: nat, one: seq<Stmt>, rest: seq<Stmt>)
    requires n < |chunks| && BlocksOnlyAlong(db, one, id) && Writes(Exec(db, one), rest, hash, id, chunks, n + 1)
    requires BlocksAre(hash, Exec(db, one), id, chunks, n + 1) && (n + 1 == |chunks| ==> rest == [])
    ensures Writes(db, one + rest, hash, id, chunks, n)
  {
    hide BlocksAre; hide BlocksOnly; hide BlocksOnlyAlong; hide Exec;
    ExecConcat(db, one, rest);
    BlocksOnlyAlongConcat(db, one, rest, id);
    NothingAlong(Exec(db, one), id);
  }

  /** After one block all is ready for the next. */
  lemma OneBlockReady(db: Db, hash: Hasher, id: nat, chunks: seq<Bytes>, n: nat)
    requires id in db.entries && BlocksOwned(db) && n < |chunks| && (n == 0 || BlocksAre(hash, db, id, chunks, n))
    ensures var ss := OneBlockStmts(db, hash, id, n + 1, chunks[n]);
            var mid := Exec(db, ss);
            && id in mid.entries && BlocksOwned(mid) && BlocksAre(hash, mid, id, chunks, n + 1) && BlocksOnlyAlong(db, ss, id)
  {
    hide BlocksAre; hide BlocksOnly; hide BlocksOnlyAlong; hide OneBlockStmts; hide Exec;
    OneBlockEffect(db, hash, id, chunks, n);
    StillOwned(db, Exec(db, OneBlockStmts(db, hash, id, n + 1, chunks[n])), id);
  }

  lemma {:induction false} BlocksWritten(db: Db, hash: Hasher, id: nat, chunks: seq<Bytes>, n: nat)
    requires id in db.entries && BlocksOwned(db) && n <= |chunks| && (n == 0 || BlocksAre(hash, db, id, chunks, n))
    ensures Writes(db, BlockStmts(db, hash, id, chunks, n), hash, id, chunks, n)
    decreases |chunks| - n
  {
    hide BlockStmts; hide Apply;
    NextBlocks(db, hash, id, chunks, n);
    if n == |chunks| {
      NothingAlong(db, id);
    } else {
      hide BlocksAre; hide BlocksOnly; hide BlocksOnlyAlong; hide OneBlockStmts; hide BlocksOwned; hide Exec; hide Writes;
      var one := OneBlockStmts(db, hash, id, n + 1, chunks[n]);
      var mid := Exec(db, one);
      OneBlockReady(db, hash, id, chunks, n);
      BlocksWritten(mid, hash, id, chunks, n + 1);
      NextBlocks(mid, hash, id, chunks, n + 1);
      WritesOne(db, hash, id, chunks, n, one, BlockStmts(mid, hash, id, chunks, n + 1));
    }
  }

  /**
   * Writing the blocks of a file touches no other entry's blocks at any boundary, and unless the
   * file delivers nothing it leaves exactly the delivered blocks, whatever rows were there before.
   */
  lemma BlocksEffect(db: Db, hash: Hasher, id: nat, chunks: seq<Bytes>)
    requires id in db.entries && BlocksOwned(db)
    ensures var ss := BlockStmts(db, hash, id, chunks, 0);
            && (chunks != [] ==> BlocksAre(hash, Exec(db, ss), id, chunks, |chunks|))
            && BlocksOnlyAlong(db, ss, id)
  {
    hide BlocksAre; hide BlocksOnlyAlong; hide BlockStmts;
    BlocksWritten(db, hash, id, chunks, 0);
  }

  /** The row of an entry after its visit. */
  ghost function NodeRow(db: Db, cfg: Config, parent: nat, n: Node): Row {
    var row := EntryRow(db, cfg, NodeCols(parent, n), n.ver.mtime);
    if Rehashed(db, cfg, parent, n) && n.io.ReadsToEnd? then
      row.(mtime := Some(n.ver.mtime), digest := Some(cfg.hash.file(PadAll(n.ver.chunks))))
    else row
  }

  /** A whole visit writes one row of `entries`, and no blocks but its own. */
  lemma NodeEffect(db: Db, cfg: Config, parent: nat, n: Node)
    requires FreshIds(cfg.rowids) && BlocksOwned(db)
    ensures var to := Exec(db, NodeStmts(db, cfg, parent, n));
            var id := EntryId(db, cfg, NodeCols(parent, n));
            && to.entries == db.entries[id := NodeRow(db, cfg, parent, n)]
            && (Rehashed(db, cfg, parent, n) && Delivered(n) != [] ==> BlocksAre(cfg.hash, to, id, Delivered(n), |Delivered(n)|))
            && (forall k: (nat, nat) :: k.0 != id || !Rehashed(db, cfg, parent, n) || Delivered(n) == [] ==>
                  (k in to.blocks <==> k in db.blocks) && (k in db.blocks ==> to.blocks[k] == db.blocks[k]))
  {
    var c := NodeCols(parent, n);
    var id := EntryId(db, cfg, c);
    var entry := EntryStmts(db, cfg, c, n.ver.mtime);
    var mid := Exec(db, entry);
    EntryEffect(db, cfg, c, n.ver.mtime);
    if Rehashed(db, cfg, parent, n) {
      ExecConcat(db, entry, FileStmts(mid, cfg.hash, id, n));
      FileEffect(mid, cfg.hash, id, n);
    } else {
      assert entry + [] == entry;
    }
  }

  lemma FileEffect(db: Db, hash: Hasher, id: nat, f: Node)
    requires f.File? && id in db.entries && !db.entries[id].alive && BlocksOwned(db)
    ensures var to := Exec(db, FileStmts(db, hash, id, f));
            && to.entries == (if f.io.ReadsToEnd? then
                 db.entries[id := db.entries[id].(mtime := Some(f.ver.mtime), digest := Some(hash.file(PadAll(f.ver.chunks))))]
                 else db.entries)
            && (Delivered(f) != [] ==> BlocksAre(hash, to, id, Delivered(f), |Delivered(f)|))
            && (forall k: (nat, nat) :: k.0 != id || Delivered(f) == [] ==>
                  (k in to.blocks <==> k in db.blocks) && (k in db.blocks ==> to.blocks[k] == db.blocks[k]))
  {
    var ss := BlockStmts(db, hash, id, Delivered(f), 0);
    BlocksEffect(db, hash, id, Delivered(f));
    assert ss[..|ss|] == ss;
    var mid := Exec(db, ss);
    assert BlocksOnly(db, mid, id);
    if f.io.ReadsToEnd? {
      var fin := Stmt.Finish(id, f.ver.mtime, hash.file(PadAll(f.ver.chunks)));
      ExecConcat(db, ss, [fin]);
      ExecFew(mid, fin, fin, fin);
    } else {
      assert ss + [] == ss;
    }
  }
}
