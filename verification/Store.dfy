/**
 * The two tables of the index and the SQL statements that change them.
 *
 * Every statement is one atomic step. `Structure` is the integrity of the two tables;
 * each lemma below says what one kind of step does to it.
 */
module Store {
  import opened Common
  import opened Tree

  datatype Row = Row(alive: bool, parent: nat, name: string, isDir: bool, mtime: Option<nat>,
                     size: Option<nat>, blockSize: Option<nat>, digest: Option<Bytes>)

  datatype Db = Db(entries: map<nat, Row>, blocks: map<(nat, nat), Bytes>)

  const EMPTY: Db := Db(map[], map[])

  /** The values bound to the insert and update statements of `entries`. */
  datatype Cols = Cols(parent: nat, name: string, isDir: bool, fileSize: nat, blockSize: nat)

  /**
   * The last three are what the transaction of `cleanup_entries` can leave: it is opened without
   * rollback, so when the second or the third statement of its script throws, it is committed with
   * the statements before it. `SweepBlocks` is the first DELETE alone, `SweepRows` both DELETEs.
   */
  datatype Stmt =
    | Insert(rowid: nat, cols: Cols)
    | Update(cols: Cols)
    | Touch(id: nat)
    | Finish(id: nat, mtime: nat, digest: Bytes)
    | BlockInsert(id: nat, no: nat, digest: Bytes)
    | BlockUpdate(id: nat, no: nat, digest: Bytes)
    | BlockDeleteAbove(id: nat, no: nat)
    | SweepBlocks
    | SweepRows
    | Sweep

  /** Zero is bound as NULL. */
  function NonZero(n: nat): Option<nat> {
    if n == 0 then None else Some(n)
  }

  /** NULL is read as zero. */
  function ReadTime(row: Row): nat {
    if row.mtime.Some? then row.mtime.value else 0
  }

  ghost predicate IsKey(db: Db, id: nat, parent: nat, name: string) {
    id in db.entries && db.entries[id].parent == parent && db.entries[id].name == name
  }

  ghost function Find(db: Db, parent: nat, name: string): (r: Option<nat>)
    ensures r.Some? ==> IsKey(db, r.value, parent, name)
    ensures r.None? ==> forall id :: !IsKey(db, id, parent, name)
  {
    if exists id :: IsKey(db, id, parent, name) then
      var id :| IsKey(db, id, parent, name);
      Some(id)
    else None
  }

  function InsertedRow(c: Cols): Row {
    Row(false, c.parent, c.name, c.isDir, None, NonZero(c.fileSize), NonZero(c.blockSize), None)
  }

  function UpdatedRow(r: Row, c: Cols): Row {
    r.(alive := false, isDir := c.isDir, size := NonZero(c.fileSize), blockSize := NonZero(c.blockSize), digest := None)
  }

  function Put(db: Db, id: nat, row: Row): Db {
    db.(entries := db.entries[id := row])
  }

  /** The block rows that do not belong to an unmarked row. */
  function SparedBlocks(db: Db): map<(nat, nat), Bytes> {
    map k | k in db.blocks && !(k.0 in db.entries && db.entries[k.0].alive) :: db.blocks[k]
  }

  ghost function Apply(db: Db, s: Stmt): Db {
    match s
    case Insert(id, c) =>
      if Find(db, c.parent, c.name).Some? then db else Put(db, id, InsertedRow(c))
    case Update(c) =>
      var f := Find(db, c.parent, c.name);
      if f.Some? then Put(db, f.value, UpdatedRow(db.entries[f.value], c)) else db
    case Touch(id) =>
      if id in db.entries then Put(db, id, db.entries[id].(alive := false)) else db
    case Finish(id, mtime, digest) =>
      if id in db.entries then
        Put(db, id, db.entries[id].(alive := false, mtime := Some(mtime), digest := Some(digest)))
      else db
    case BlockInsert(id, no, digest) =>
      if (id, no) in db.blocks then db else db.(blocks := db.blocks[(id, no) := digest])
    case BlockUpdate(id, no, digest) =>
      if (id, no) in db.blocks then db.(blocks := db.blocks[(id, no) := digest]) else db
    case BlockDeleteAbove(id, no) =>
      db.(blocks := map k | k in db.blocks && !(k.0 == id && k.1 > no) :: db.blocks[k])
    case SweepBlocks =>
      db.(blocks := SparedBlocks(db))
    case SweepRows =>
      Db(map id | id in db.entries && !db.entries[id].alive :: db.entries[id], SparedBlocks(db))
    case Sweep =>
      Db(map id | id in db.entries && !db.entries[id].alive :: db.entries[id].(alive := true), SparedBlocks(db))
  }

  ghost function Exec(db: Db, ss: seq<Stmt>): Db
    decreases |ss|
  {
    if ss == [] then db else Exec(Apply(db, ss[0]), ss[1..])
  }

  lemma ExecFew(db: Db, a: Stmt, b: Stmt, c: Stmt)
    ensures Exec(db, []) == db
    ensures Exec(db, [a]) == Apply(db, a)
    ensures Exec(db, [a, b]) == Apply(Apply(db, a), b)
    ensures Exec(db, [a, b, c]) == Apply(Apply(Apply(db, a), b), c)
  {
    var one, two := Apply(db, a), Apply(Apply(db, a), b);
    assert [a][1..] == [] && Exec(db, [a]) == Exec(one, []);
    assert [b][1..] == [] && Exec(one, [b]) == Exec(two, []);
    assert [c][1..] == [] && Exec(two, [c]) == Exec(Apply(two, c), []);
    assert [a, b][1..] == [b] && Exec(db, [a, b]) == Exec(one, [b]);
    assert [b, c][1..] == [c] && Exec(one, [b, c]) == Exec(two, [c]);
    assert [a, b, c][1..] == [b, c] && Exec(db, [a, b, c]) == Exec(one, [b, c]);
  }

  lemma {:induction false} ExecConcat(db: Db, a: seq<Stmt>, b: seq<Stmt>)
    ensures Exec(db, a + b) == Exec(Exec(db, a), b)
    decreases |a|
  {
    if a == [] {
      assert a + b == b;
    } else {
      assert (a + b)[0] == a[0] && (a + b)[1..] == a[1..] + b;
      ExecConcat(Apply(db, a[0]), a[1..], b);
    }
  }

  /** A boundary inside `a + b` is a boundary of `a`, or of `b` run after `a`. */
  lemma SplitBoundary(db: Db, a: seq<Stmt>, b: seq<Stmt>, k: nat)
    requires k <= |a + b|
    ensures k <= |a| ==> Exec(db, (a + b)[..k]) == Exec(db, a[..k])
    ensures k > |a| ==> Exec(db, (a + b)[..k]) == Exec(Exec(db, a), b[..k - |a|])
  {
    if k <= |a| {
      assert (a + b)[..k] == a[..k];
    } else {
      assert (a + b)[..k] == a + b[..k - |a|];
      ExecConcat(db, a, b[..k - |a|]);
    }
  }

  // ---------------------------------------------------------------- integrity

  /** Row `id` stands for component path `p`: its parent chain spells it. */
  ghost predicate Denotes(db: Db, id: nat, p: Path)
    decreases |p|
  {
    && |p| > 0
    && id in db.entries
    && db.entries[id].name == p[|p| - 1]
    && (if |p| == 1 then db.entries[id].parent == 0 else Denotes(db, db.entries[id].parent, p[..|p| - 1]))
  }

  ghost predicate SameKey(db: Db, i: nat, j: nat) {
    i in db.entries && IsKey(db, j, db.entries[i].parent, db.entries[i].name)
  }

  ghost predicate UniqueKeys(db: Db) {
    forall i, j :: SameKey(db, i, j) ==> i == j
  }

  /** Every parent chain is finite and ends in a row whose parent is 0. */
  ghost predicate Forest(db: Db) {
    forall id :: id in db.entries ==> exists p :: Denotes(db, id, p)
  }

  ghost predicate Marked(db: Db, id: nat) {
    id in db.entries && !db.entries[id].alive
  }

  ghost predicate MarksClosed(db: Db) {
    forall id :: Marked(db, id) && db.entries[id].parent != 0 ==> Marked(db, db.entries[id].parent)
  }

  /** Block rows belong to existing rows and are numbered from one. */
  ghost predicate BlocksOwned(db: Db) {
    forall k :: k in db.blocks ==> k.0 in db.entries && k.1 >= 1
  }

  /** A row without a parent is the row of a root directory and never carries file data. */
  ghost predicate RootRows(db: Db) {
    forall id :: id in db.entries && db.entries[id].parent == 0 ==>
      && db.entries[id].isDir && db.entries[id].mtime == None && db.entries[id].size == None
      && db.entries[id].blockSize == None && db.entries[id].digest == None
  }

  ghost predicate Structure(db: Db) {
    0 !in db.entries && UniqueKeys(db) && Forest(db) && MarksClosed(db) && BlocksOwned(db) && RootRows(db)
  }

  lemma {:induction false} DenotesOnePath(db: Db, id: nat, p: Path, q: Path)
    requires 0 !in db.entries && Denotes(db, id, p) && Denotes(db, id, q)
    ensures p == q
    decreases |p|
  {
    if |p| > 1 && |q| > 1 {
      DenotesOnePath(db, db.entries[id].parent, p[..|p| - 1], q[..|q| - 1]);
    }
    assert p == p[..|p| - 1] + [p[|p| - 1]];
    assert q == q[..|q| - 1] + [q[|q| - 1]];
  }

  lemma {:induction false} DenotesOneRow(db: Db, i: nat, j: nat, p: Path)
    requires UniqueKeys(db) && Denotes(db, i, p) && Denotes(db, j, p)
    ensures i == j
    decreases |p|
  {
    if |p| > 1 {
      DenotesOneRow(db, db.entries[i].parent, db.entries[j].parent, p[..|p| - 1]);
    }
    assert SameKey(db, i, j);
  }

  /** `to` has every row of `from`, under the same key. */
  ghost predicate KeepsKeys(from: Db, to: Db) {
    forall id :: id in from.entries ==>
      id in to.entries && to.entries[id].parent == from.entries[id].parent && to.entries[id].name == from.entries[id].name
  }

  lemma {:induction false} DenotesKept(from: Db, to: Db, id: nat, p: Path)
    requires KeepsKeys(from, to) && Denotes(from, id, p)
    ensures Denotes(to, id, p)
    decreases |p|
  {
    if |p| > 1 {
      DenotesKept(from, to, from.entries[id].parent, p[..|p| - 1]);
    }
  }

  /** Over integral tables a surviving row denotes the same path before and after. */
  lemma DenotesSame(from: Db, to: Db, id: nat, p: Path)
    requires Structure(from) && 0 !in to.entries && KeepsKeys(from, to) && id in from.entries
    ensures Denotes(from, id, p) <==> Denotes(to, id, p)
  {
    var q :| Denotes(from, id, q);
    DenotesKept(from, to, id, q);
    if Denotes(to, id, p) {
      DenotesOnePath(to, id, p, q);
    }
    if Denotes(from, id, p) {
      DenotesKept(from, to, id, p);
    }
  }

  /** Rows marked 0 have all their ancestors marked 0: the key of a chain of marks. */
  lemma {:induction false} MarkedPrefix(db: Db, id: nat, p: Path, n: nat) returns (anc: nat)
    requires 0 !in db.entries && MarksClosed(db) && Denotes(db, id, p) && Marked(db, id) && 0 < n <= |p|
    ensures Denotes(db, anc, p[..n]) && Marked(db, anc)
    decreases |p|
  {
    if n == |p| {
      assert p[..n] == p;
      anc := id;
    } else {
      assert p[..n] == p[..|p| - 1][..n];
      anc := MarkedPrefix(db, db.entries[id].parent, p[..|p| - 1], n);
    }
  }

  /** What the code guarantees whenever it inserts or rewrites a row. */
  ghost predicate PutAllowed(db: Db, id: nat, row: Row) {
    && PutKeyed(db, id, row)
    && (row.parent == 0 ==> row.isDir && row.mtime == None && row.size == None && row.blockSize == None && row.digest == None)
  }

  ghost predicate PutKeyed(db: Db, id: nat, row: Row) {
    && id != 0
    && !row.alive
    && (row.parent != 0 ==> Marked(db, row.parent))
    && (id in db.entries ==> db.entries[id].parent == row.parent && db.entries[id].name == row.name)
    && (id !in db.entries ==> forall j :: !IsKey(db, j, row.parent, row.name))
  }

  lemma PutKeepsForest(db: Db, id: nat, row: Row)
    requires Forest(db) && PutAllowed(db, id, row)
    ensures Forest(Put(db, id, row))
  {
    assert row.parent != 0 ==> row.parent in db.entries;
    hide Marked; hide IsKey;
    var to := Put(db, id, row);
    assert KeepsKeys(db, to);
    forall i | i in to.entries
      ensures exists p :: Denotes(to, i, p)
    {
      if i in db.entries {
        var p :| Denotes(db, i, p);
        DenotesKept(db, to, i, p);
      } else if row.parent == 0 {
        assert Denotes(to, i, [row.name]);
      } else {
        var p :| Denotes(db, row.parent, p);
        DenotesKept(db, to, row.parent, p);
        assert (p + [row.name])[..|p|] == p;
        assert Denotes(to, i, p + [row.name]);
      }
    }
  }

  lemma PutKeepsUniqueKeys(db: Db, id: nat, row: Row)
    requires UniqueKeys(db) && PutKeyed(db, id, row)
    ensures UniqueKeys(Put(db, id, row))
  {
    var to := Put(db, id, row);
    forall i: nat, j: nat | SameKey(to, i, j)
      ensures i == j
    {
      if i != j && id !in db.entries {
        assert !IsKey(db, if i == id then j else i, row.parent, row.name);
      }
      assert i != j ==> SameKey(db, i, j);
    }
  }

  lemma PutKeepsMarks(db: Db, id: nat, row: Row)
    requires MarksClosed(db) && PutKeyed(db, id, row)
    ensures MarksClosed(Put(db, id, row))
  {
    var to := Put(db, id, row);
    forall i | Marked(to, i) && to.entries[i].parent != 0
      ensures Marked(to, to.entries[i].parent)
    {
      if i != id {
        assert Marked(db, i);
      }
    }
  }

  lemma PutKeepsStructure(db: Db, id: nat, row: Row)
    requires Structure(db) && PutAllowed(db, id, row)
    ensures Structure(Put(db, id, row))
    ensures KeepsKeys(db, Put(db, id, row))
  {
    hide Forest; hide UniqueKeys; hide MarksClosed; hide Marked;
    PutKeepsForest(db, id, row);
    PutKeepsUniqueKeys(db, id, row);
    PutKeepsMarks(db, id, row);
  }

  /** Only block rows of `id` differ. */
  ghost predicate BlocksOnly(from: Db, to: Db, id: nat) {
    && to.entries == from.entries
    && (forall k: (nat, nat) :: k.0 != id ==> (k in to.blocks <==> k in from.blocks))
    && (forall k: (nat, nat) :: k.0 != id && k in from.blocks ==> to.blocks[k] == from.blocks[k])
    && (forall k: (nat, nat) :: k in to.blocks && k !in from.blocks ==> k.1 >= 1)
  }

  /** At every boundary of `ss`, only block rows of `id` differ from the start. */
  ghost predicate BlocksOnlyAlong(db: Db, ss: seq<Stmt>, id: nat) {
    forall k :: 0 <= k <= |ss| ==> BlocksOnly(db, Exec(db, ss[..k]), id)
  }

  lemma BlocksOnlyTrans(a: Db, b: Db, c: Db, id: nat)
    requires BlocksOnly(a, b, id) && BlocksOnly(b, c, id)
    ensures BlocksOnly(a, c, id)
  {
    forall k: (nat, nat) | k in c.blocks && k !in a.blocks
      ensures k.1 >= 1
    {
      assert k in b.blocks || k !in b.blocks;
    }
  }

  lemma BlocksOnlyAlongConcat(db: Db, a: seq<Stmt>, b: seq<Stmt>, id: nat)
    requires BlocksOnlyAlong(db, a, id) && BlocksOnlyAlong(Exec(db, a), b, id)
    ensures BlocksOnlyAlong(db, a + b, id)
  {
    assert a[..|a|] == a;
    forall k | 0 <= k <= |a + b|
      ensures BlocksOnly(db, Exec(db, (a + b)[..k]), id)
    {
      SplitBoundary(db, a, b, k);
      if k > |a| {
        BlocksOnlyTrans(db, Exec(db, a), Exec(Exec(db, a), b[..k - |a|]), id);
      }
    }
  }

  lemma BlocksKeepStructure(from: Db, to: Db, id: nat)
    requires Structure(from) && id in from.entries && BlocksOnly(from, to, id)
    ensures Structure(to)
  {
    DenotesAgree(from, to);
    forall i: nat, j: nat | SameKey(to, i, j)
      ensures i == j
    {
      assert SameKey(from, i, j);
    }
  }

  lemma DenotesAgree(from: Db, to: Db)
    requires from.entries == to.entries
    ensures forall id, p :: Denotes(from, id, p) <==> Denotes(to, id, p)
  {
    forall id, p
      ensures Denotes(from, id, p) <==> Denotes(to, id, p)
    {
      if Denotes(from, id, p) {
        DenotesKept(from, to, id, p);
      }
      if Denotes(to, id, p) {
        DenotesKept(to, from, id, p);
      }
    }
  }

  // ---------------------------------------------------------------- the sweep

  lemma {:induction false} MarksSurvive(db: Db, id: nat, p: Path)
    requires 0 !in db.entries && MarksClosed(db)
    ensures Denotes(db, id, p) && Marked(db, id) <==> Denotes(Apply(db, Sweep), id, p)
    decreases |p|
  {
    if |p| > 1 && id in db.entries {
      MarksSurvive(db, db.entries[id].parent, p[..|p| - 1]);
      if Marked(db, id) {
        assert db.entries[id].parent != 0 ==> Marked(db, db.entries[id].parent);
      }
    }
  }

  lemma SweepKeepsMarked(db: Db, id: nat, p: Path)
    requires Structure(db)
    ensures Denotes(db, id, p) && Marked(db, id) <==> Denotes(Apply(db, Sweep), id, p)
  {
    MarksSurvive(db, id, p);
  }

  /** The sweep orphans no row and leaves no block row behind, and marks every survivor alive. */
  lemma SweepKeepsStructure(db: Db)
    requires Structure(db)
    ensures Structure(Apply(db, Sweep))
    ensures forall id :: id in Apply(db, Sweep).entries <==> Marked(db, id)
    ensures forall id :: !Marked(Apply(db, Sweep), id)
  {
    var to := Apply(db, Sweep);
    forall id | id in to.entries
      ensures exists p :: Denotes(to, id, p)
    {
      var p :| Denotes(db, id, p);
      SweepKeepsMarked(db, id, p);
    }
    forall i: nat, j: nat | SameKey(to, i, j)
      ensures i == j
    {
      assert SameKey(db, i, j);
    }
  }
  // ---------------------------------------------------------------- a sweep that fails

  /** Committed after its first DELETE, the sweep leaves every row and takes the blocks of unmarked ones. */
  lemma SweepBlocksKeepsStructure(db: Db)
    requires Structure(db)
    ensures Structure(Apply(db, SweepBlocks))
  {
    var to := Apply(db, SweepBlocks);
    DenotesAgree(db, to);
    forall i: nat, j: nat | SameKey(to, i, j)
      ensures i == j
    {
      assert SameKey(db, i, j);
    }
  }

  /** Committed after both DELETEs, it is the sweep but for the marks. */
  lemma SweptRowsAreSweep(db: Db)
    ensures var rows, swept := Apply(db, SweepRows), Apply(db, Sweep);
            && rows.blocks == swept.blocks && rows.entries.Keys == swept.entries.Keys
            && (forall id :: id in rows.entries ==> !rows.entries[id].alive && rows.entries[id].(alive := true) == swept.entries[id])
            && KeepsKeys(rows, swept) && KeepsKeys(swept, rows)
  {
  }

  lemma SweepRowsKeepsStructure(db: Db)
    requires Structure(db)
    ensures Structure(Apply(db, SweepRows))
  {
    hide Apply; hide Forest; hide UniqueKeys; hide MarksClosed;
    SweepKeepsStructure(db);
    SweptRowsAreSweep(db);
    AllMarked(Apply(db, Sweep), Apply(db, SweepRows));
  }

  /** Integral tables stay integral when every row is marked. */
  lemma AllMarked(from: Db, to: Db)
    requires Forest(from) && UniqueKeys(from) && KeepsKeys(from, to) && KeepsKeys(to, from)
    requires forall id :: id in to.entries ==> Marked(to, id)
    ensures Forest(to) && UniqueKeys(to) && MarksClosed(to)
  {
    forall id | id in to.entries
      ensures exists p :: Denotes(to, id, p)
      ensures to.entries[id].parent != 0 ==> Marked(to, to.entries[id].parent)
    {
      var p :| Denotes(from, id, p);
      DenotesKept(from, to, id, p);
      assert to.entries[id].parent != 0 ==> Denotes(to, to.entries[id].parent, p[..|p| - 1]);
    }
    forall i: nat, j: nat | SameKey(to, i, j)
      ensures i == j
    {
      assert SameKey(from, i, j);
    }
  }
}
