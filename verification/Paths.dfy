/**
 * The `entries` table seen by path instead of by rowid, and what a visit does to that view.
 */
module Paths {
  import opened Common
  import opened Tree
  import opened Store
  import opened Pass
  import opened Integrity

  ghost predicate HasRow(db: Db, p: Path) {
    exists id :: Denotes(db, id, p)
  }

  /** The row that denotes path `p`, if any. */
  ghost function RowAt(db: Db, p: Path): (r: Option<Row>)
    ensures r.Some? <==> HasRow(db, p)
  {
    if HasRow(db, p) then
      var id :| Denotes(db, id, p);
      Some(db.entries[id])
    else None
  }

  ghost predicate MarkedAt(db: Db, p: Path) {
    RowAt(db, p).Some? && !RowAt(db, p).value.alive
  }

  lemma RowAtIs(db: Db, id: nat, p: Path)
    requires UniqueKeys(db) && Denotes(db, id, p)
    ensures RowAt(db, p) == Some(db.entries[id])
  {
    var i :| Denotes(db, i, p) && RowAt(db, p) == Some(db.entries[i]);
    DenotesOneRow(db, i, id, p);
  }

  /** Rewriting the row of path `p` changes the view at `p` only. */
  lemma PutRowAt(db: Db, to: Db, id: nat, row: Row, p: Path, q: Path)
    requires Structure(db) && PutAllowed(db, id, row) && Denotes(Put(db, id, row), id, p)
    requires to.entries == Put(db, id, row).entries
    ensures RowAt(to, q) == if q == p then Some(row) else RowAt(db, q)
  {
    var put := Put(db, id, row);
    PutKeepsStructure(db, id, row);
    DenotesAgree(put, to);
    if q == p {
      RowAtIs(put, id, p);
      RowAtSame(put, to, q);
    } else if i: nat :| Denotes(db, i, q) {
      DenotesKept(db, put, i, q);
      if i == id {
        DenotesOnePath(put, id, p, q);
      }
      RowAtIs(db, i, q);
      RowAtIs(put, i, q);
      RowAtSame(put, to, q);
    } else if i: nat :| Denotes(put, i, q) {
      if i == id {
        DenotesOnePath(put, id, p, q);
      } else {
        DenotesSame(db, put, i, q);
      }
    }
  }

  lemma RowAtSame(a: Db, b: Db, q: Path)
    requires Structure(a) && a.entries == b.entries
    ensures RowAt(a, q) == RowAt(b, q)
  {
    DenotesAgree(a, b);
    if id: nat :| Denotes(a, id, q) {
      RowAtIs(a, id, q);
      assert UniqueKeys(b) by {
        forall i: nat, j: nat | SameKey(b, i, j)
          ensures i == j
        {
          assert SameKey(a, i, j);
        }
      }
      RowAtIs(b, id, q);
    }
  }

  /** The row with this key. */
  ghost function Found(db: Db, parent: nat, name: string): Option<Row> {
    var f := Find(db, parent, name);
    if f.Some? then Some(db.entries[f.value]) else None
  }

  /** Found by key below a known parent is the same as denoting the path. */
  lemma FoundAt(db: Db, parent: nat, dir: Path, name: string)
    requires UniqueKeys(db) && 0 !in db.entries
    requires if dir == [] then parent == 0 else Denotes(db, parent, dir)
    ensures RowAt(db, dir + [name]) == Found(db, parent, name)
  {
    var p := dir + [name];
    assert p[..|p| - 1] == dir;
    var f := Find(db, parent, name);
    if f.Some? {
      RowAtIs(db, f.value, p);
    } else if id: nat :| Denotes(db, id, p) {
      if dir != [] {
        DenotesOneRow(db, db.entries[id].parent, parent, dir);
      }
      assert IsKey(db, id, parent, name);
    }
  }

  /** Every row denotes exactly one path and every path at most one row. */
  lemma OneRowPerPath(db: Db)
    requires Structure(db)
    ensures Forest(db)
    ensures forall id, p, q :: Denotes(db, id, p) && Denotes(db, id, q) ==> p == q
    ensures forall i, j, p :: Denotes(db, i, p) && Denotes(db, j, p) ==> i == j
  {
    forall id, p, q | Denotes(db, id, p) && Denotes(db, id, q)
      ensures p == q
    {
      DenotesOnePath(db, id, p, q);
    }
    forall i, j, p | Denotes(db, i, p) && Denotes(db, j, p)
      ensures i == j
    {
      DenotesOneRow(db, i, j, p);
    }
  }

  // ---------------------------------------------------------------- one visit

  /** The parent's statements bring at most the root row up to date. */
  lemma ParentRowAt(db: Db, cfg: Config, cache: Cache, v: Visit, q: Path)
    requires Structure(db) && FreshIds(cfg.rowids) && Placed(v) && CacheOk(db, cache) && Processed(cache, v)
    ensures var to := Exec(db, ParentStmts(db, cfg, cache, v));
            && (q != v.dir[..1] ==> RowAt(to, q) == RowAt(db, q))
            && MarkedAt(to, v.dir[..1])
  {
    if v.dir in cache {
      var anc := MarkedPrefix(db, cache[v.dir], v.dir, 1);
      RowAtIs(db, anc, v.dir[..1]);
    } else {
      var c := RootCols(v.dir);
      EntryEffect(db, cfg, c, 0);
      EntryPut(db, cfg, c, 0, []);
      assert [] + [c.name] == v.dir[..1];
      PutRowAt(db, Exec(db, EntryStmts(db, cfg, c, 0)), EntryId(db, cfg, c), EntryRow(db, cfg, c, 0), v.dir[..1], q);
      PutRowAt(db, Exec(db, EntryStmts(db, cfg, c, 0)), EntryId(db, cfg, c), EntryRow(db, cfg, c, 0), v.dir[..1], v.dir[..1]);
    }
  }

  lemma NodeRowAt(db: Db, cfg: Config, parent: nat, v: Visit, q: Path)
    requires Structure(db) && FreshIds(cfg.rowids)
    requires v.dir != [] && Denotes(db, parent, v.dir) && Marked(db, parent)
    ensures RowAt(Exec(db, NodeStmts(db, cfg, parent, v.node)), q) ==
              if q == v.FullPath() then Some(NodeRow(db, cfg, parent, v.node)) else RowAt(db, q)
  {
    NodePutAllowed(db, cfg, parent, v);
    NodeEntries(db, cfg, parent, v.node);
    PutRowAt(db, Exec(db, NodeStmts(db, cfg, parent, v.node)), EntryId(db, cfg, NodeCols(parent, v.node)),
             NodeRow(db, cfg, parent, v.node), v.FullPath(), q);
  }

  /** The kind a visit leaves in the row, from the row it found. */
  function KindAfter(cfg: Config, prior: Option<Row>, n: Node): bool {
    if cfg.modifiedOnly && prior.Some? && (ReadTime(prior.value) == n.ver.mtime || n.ver.mtime == 0) then prior.value.isDir
    else n.Dir?
  }

  /** A whole visit, by path: the entry and the root are marked, every other path is as before. */
  lemma VisitRowAt(db: Db, cfg: Config, cache: Cache, v: Visit, q: Path)
    requires Structure(db) && FreshIds(cfg.rowids) && Placed(v) && CacheOk(db, cache) && Processed(cache, v)
    ensures var to := Exec(db, Manipulate(db, cfg, cache, v).stmts);
            && (q != v.dir[..1] && q != v.FullPath() ==> RowAt(to, q) == RowAt(db, q))
            && MarkedAt(to, v.dir[..1])
            && MarkedAt(to, v.FullPath())
            && RowAt(to, v.FullPath()).value.isDir == KindAfter(cfg, RowAt(db, v.FullPath()), v.node)
  {
    var mid, parent := Exec(db, ParentStmts(db, cfg, cache, v)), ParentId(db, cfg, cache, v);
    ManipulateSplit(db, cfg, cache, v);
    ParentGrows(db, cfg, cache, v);
    ParentRowAt(db, cfg, cache, v, q);
    ParentRowAt(db, cfg, cache, v, v.FullPath());
    NodeRowAt(mid, cfg, parent, v, q);
    NodeRowAt(mid, cfg, parent, v, v.dir[..1]);
    NodeRowAt(mid, cfg, parent, v, v.FullPath());
    FoundAt(mid, parent, v.dir, v.node.name);
  }

  /** The time in a row, if there is a row and a time in it. */
  function StoredTime(r: Option<Row>): Option<nat> {
    if r.Some? then r.value.mtime else None
  }

  /** In a modified_only pass an entry that has no time, or the time in its row, only has its row marked. */
  predicate OnlyMarked(cfg: Config, prior: Option<Row>, mtime: nat) {
    cfg.modifiedOnly && prior.Some? && (mtime == 0 || prior.value.mtime == Some(mtime))
  }

  /** The columns `update_entry` leaves at a path, apart from time and digest, from the row it found there. */
  predicate Entered(cfg: Config, prior: Option<Row>, name: string, isDir: bool, mtime: nat, size: nat, blockSize: nat, row: Row) {
    && row.name == name && !row.alive
    && if OnlyMarked(cfg, prior, mtime) then
         row.isDir == prior.value.isDir && row.size == prior.value.size && row.blockSize == prior.value.blockSize
       else
         row.isDir == isDir && SizeIs(row.size, size) && SizeIs(row.blockSize, blockSize)
  }

  /** The digest is dropped with the other columns written anew. */
  function KeptDigest(cfg: Config, prior: Option<Row>, mtime: nat): Option<Bytes> {
    if OnlyMarked(cfg, prior, mtime) then prior.value.digest else None
  }

  /** The row of the root directory: brought up to date as a directory without time or size, unless the pass has met it. */
  lemma RootColumns(db: Db, cfg: Config, cache: Cache, v: Visit)
    requires Structure(db) && FreshIds(cfg.rowids) && Placed(v) && CacheOk(db, cache) && Processed(cache, v)
    ensures var to := Exec(db, Manipulate(db, cfg, cache, v).stmts);
            && RowAt(to, v.dir[..1]).Some?
            && if v.dir in cache then RowAt(to, v.dir[..1]) == RowAt(db, v.dir[..1])
               else
                 var prior, row := RowAt(db, v.dir[..1]), RowAt(to, v.dir[..1]).value;
                 && Entered(cfg, prior, v.dir[0], true, 0, 0, 0, row)
                 && row.mtime == StoredTime(prior) && row.digest == KeptDigest(cfg, prior, 0)
  {
    RootBecomes(db, cfg, cache, v);
    hide Structure; hide Denotes; hide CacheOk; hide Manipulate; hide Exec;
  }

  lemma RootBecomes(db: Db, cfg: Config, cache: Cache, v: Visit)
    requires Structure(db) && FreshIds(cfg.rowids) && Placed(v) && CacheOk(db, cache) && Processed(cache, v)
    ensures var to := Exec(db, Manipulate(db, cfg, cache, v).stmts);
            var c := RootCols(v.dir);
            && RowAt(to, v.dir[..1]).Some?
            && if v.dir in cache then RowAt(to, v.dir[..1]) == RowAt(db, v.dir[..1])
               else RowAt(to, v.dir[..1]) == Some(EntryRow(db, cfg, c, 0)) && RowAt(db, v.dir[..1]) == Found(db, 0, c.name)
  {
    hide EntryRow; hide NodeRow;
    var mid, parent := Exec(db, ParentStmts(db, cfg, cache, v)), ParentId(db, cfg, cache, v);
    ManipulateSplit(db, cfg, cache, v);
    ParentGrows(db, cfg, cache, v);
    ParentRowAt(db, cfg, cache, v, v.dir[..1]);
    NodeRowAt(mid, cfg, parent, v, v.dir[..1]);
    if v.dir !in cache {
      RootRowAt(db, cfg, v);
    }
  }

  lemma RootRowAt(db: Db, cfg: Config, v: Visit)
    requires Structure(db) && FreshIds(cfg.rowids) && v.dir != []
    ensures var c := RootCols(v.dir);
            RowAt(Exec(db, EntryStmts(db, cfg, c, 0)), v.dir[..1]) == Some(EntryRow(db, cfg, c, 0)) &&
            RowAt(db, v.dir[..1]) == Found(db, 0, c.name)
  {
    var c := RootCols(v.dir);
    EntryEffect(db, cfg, c, 0);
    EntryPut(db, cfg, c, 0, []);
    assert [] + [c.name] == v.dir[..1];
    FoundAt(db, 0, [], c.name);
    PutRowAt(db, Exec(db, EntryStmts(db, cfg, c, 0)), EntryId(db, cfg, c), EntryRow(db, cfg, c, 0), v.dir[..1], v.dir[..1]);
  }

  /** The file is read to its end on this visit, having another time than the one stored, or in a pass that reads all files. */
  predicate ReadThrough(cfg: Config, prior: Option<Row>, n: Node) {
    n.File? && n.io.ReadsToEnd? &&
    (!cfg.modifiedOnly || n.ver.mtime != if prior.Some? && prior.value.mtime.Some? then prior.value.mtime.value else 0)
  }

  /** The row a visit writes, and the row it found, both by key. */
  lemma VisitBecomes(db: Db, cfg: Config, cache: Cache, v: Visit)
    requires Structure(db) && FreshIds(cfg.rowids) && Placed(v) && CacheOk(db, cache) && Processed(cache, v)
    ensures var mid, parent := Exec(db, ParentStmts(db, cfg, cache, v)), ParentId(db, cfg, cache, v);
            && RowAt(Exec(db, Manipulate(db, cfg, cache, v).stmts), v.FullPath()) == Some(NodeRow(mid, cfg, parent, v.node))
            && RowAt(db, v.FullPath()) == Found(mid, parent, v.node.name)
  {
    hide NodeRow;
    var mid, parent := Exec(db, ParentStmts(db, cfg, cache, v)), ParentId(db, cfg, cache, v);
    ManipulateSplit(db, cfg, cache, v);
    ParentGrows(db, cfg, cache, v);
    ParentRowAt(db, cfg, cache, v, v.FullPath());
    NodeRowAt(mid, cfg, parent, v, v.FullPath());
    FoundAt(mid, parent, v.dir, v.node.name);
  }

  lemma NodeColumns(db: Db, cfg: Config, parent: nat, n: Node)
    ensures var prior, row := Found(db, parent, n.name), NodeRow(db, cfg, parent, n);
            && Entered(cfg, prior, n.name, n.Dir?, n.ver.mtime, n.ver.size, 4096, row)
            && row.mtime == (if ReadThrough(cfg, prior, n) then Some(n.ver.mtime) else StoredTime(prior))
            && row.digest == (if ReadThrough(cfg, prior, n) then Some(cfg.hash.file(PadAll(n.ver.chunks)))
                              else KeptDigest(cfg, prior, n.ver.mtime))
  {
    hide PadAll;
  }

  /** The row of the entry: its columns are the entry's, and time and digest are set if, and only if, the file was read to its end. */
  lemma VisitColumns(db: Db, cfg: Config, cache: Cache, v: Visit)
    requires Structure(db) && FreshIds(cfg.rowids) && Placed(v) && CacheOk(db, cache) && Processed(cache, v)
    ensures var to, prior, n := Exec(db, Manipulate(db, cfg, cache, v).stmts), RowAt(db, v.FullPath()), v.node;
            && RowAt(to, v.FullPath()).Some?
            && var row := RowAt(to, v.FullPath()).value;
            && Entered(cfg, prior, n.name, n.Dir?, n.ver.mtime, n.ver.size, 4096, row)
            && row.mtime == (if ReadThrough(cfg, prior, n) then Some(n.ver.mtime) else StoredTime(prior))
            && row.digest == (if ReadThrough(cfg, prior, n) then Some(cfg.hash.file(PadAll(n.ver.chunks)))
                              else KeptDigest(cfg, prior, n.ver.mtime))
  {
    hide Structure; hide Denotes; hide CacheOk; hide Manipulate; hide Exec; hide NodeRow; hide Entered; hide PadAll;
    VisitBecomes(db, cfg, cache, v);
    NodeColumns(Exec(db, ParentStmts(db, cfg, cache, v)), cfg, ParentId(db, cfg, cache, v), v.node);
  }
}
