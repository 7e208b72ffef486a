/**
 * Passes in which a statement fails with an error the code ignores.
 *
 * `update_entry` and `update_block_digest` switch exceptions off around their INSERT and look for
 * the unique conflict only, so after any other error the pass goes on: the row is not written, an
 * existing row is not updated, a new entry gets rowid 0. After the INSERT of a new entry the SELECT
 * that is to find its rowid runs with exceptions off as well: if it fails the row is there, and the
 * pass goes on with rowid 0. The functions below are those of module Pass with all this as a parameter.
 */
module Losses {
  import opened Common
  import opened Tree
  import opened Store
  import opened Pass

  /** What becomes of the row of an entry: written and found, not written, or written and not found if it is new. */
  datatype Fate = Kept | Dropped | Unseen

  /** What is lost in one callback: of the root's row, of the entry's, and the INSERTs of the blocks in order. */
  datatype Loss = Loss(root: Fate, entry: Fate, blocks: seq<bool>)

  const NONE: Loss := Loss(Kept, Kept, [])

  /** Whether the INSERT of the block with index `n` is lost. */
  predicate LostAt(lost: seq<bool>, n: nat) {
    n < |lost| && lost[n]
  }

  function First(ls: seq<Loss>): Loss {
    if ls == [] then NONE else ls[0]
  }

  function Rest(ls: seq<Loss>): seq<Loss> {
    if ls == [] then [] else ls[1..]
  }

  ghost function EntryStmtsWith(db: Db, cfg: Config, c: Cols, mtime: nat, fate: Fate): seq<Stmt> {
    if fate.Dropped? && !OnlyTouched(db, cfg, c, mtime) then [] else EntryStmts(db, cfg, c, mtime)
  }

  ghost function EntryIdWith(db: Db, cfg: Config, c: Cols, fate: Fate): nat {
    if !fate.Kept? && Find(db, c.parent, c.name).None? then 0 else EntryId(db, cfg, c)
  }

  ghost function OneBlockStmtsWith(db: Db, hash: Hasher, id: nat, no: nat, chunk: Bytes, lost: bool): seq<Stmt> {
    if lost then [BlockDeleteAbove(id, no)] else OneBlockStmts(db, hash, id, no, chunk)
  }

  ghost function BlockStmtsWith(db: Db, hash: Hasher, id: nat, chunks: seq<Bytes>, n: nat, lost: seq<bool>): seq<Stmt>
    requires n <= |chunks|
    decreases |chunks| - n
  {
    if n == |chunks| then []
    else
      var one := OneBlockStmtsWith(db, hash, id, n + 1, chunks[n], LostAt(lost, n));
      one + BlockStmtsWith(Exec(db, one), hash, id, chunks, n + 1, lost)
  }

  ghost function FileStmtsWith(db: Db, hash: Hasher, id: nat, f: Node, lost: seq<bool>): seq<Stmt>
    requires f.File?
  {
    BlockStmtsWith(db, hash, id, Delivered(f), 0, lost) +
    (if f.io.ReadsToEnd? then [Finish(id, f.ver.mtime, hash.file(PadAll(f.ver.chunks)))] else [])
  }

  ghost function NodeStmtsWith(db: Db, cfg: Config, parent: nat, n: Node, l: Loss): seq<Stmt> {
    var c := NodeCols(parent, n);
    var entry := EntryStmtsWith(db, cfg, c, n.ver.mtime, l.entry);
    entry +
    (if Rehashed(db, cfg, parent, n) then FileStmtsWith(Exec(db, entry), cfg.hash, EntryIdWith(db, cfg, c, l.entry), n, l.blocks) else [])
  }

  ghost function ParentStmtsWith(db: Db, cfg: Config, cache: Cache, v: Visit, l: Loss): seq<Stmt> {
    if v.dir in cache then [] else EntryStmtsWith(db, cfg, RootCols(v.dir), 0, l.root)
  }

  ghost function ParentIdWith(db: Db, cfg: Config, cache: Cache, v: Visit, l: Loss): nat {
    if v.dir in cache then cache[v.dir] else EntryIdWith(db, cfg, RootCols(v.dir), l.root)
  }

  ghost function ManipulateWith(db: Db, cfg: Config, cache: Cache, v: Visit, l: Loss): Scan {
    if !v.node.accessible then Scan([], cache, false)
    else if v.dir !in cache && v.level > 1 then Scan([], cache, true)
    else
      var s := ParentStmtsWith(db, cfg, cache, v, l);
      var parent := ParentIdWith(db, cfg, cache, v, l);
      var mid := Exec(db, s);
      var withParent := Emplace(cache, v.dir, parent);
      Scan(s + NodeStmtsWith(mid, cfg, parent, v.node, l),
           if v.node.Dir? then Emplace(withParent, v.FullPath(), EntryIdWith(mid, cfg, NodeCols(parent, v.node), l.entry)) else withParent,
           false)
  }

  /** A scan in which the n-th callback loses what `ls[n]` says, and nothing beyond. */
  ghost function ScanWith(db: Db, cfg: Config, cache: Cache, vs: seq<Visit>, ls: seq<Loss>): Scan
    decreases |vs|
  {
    if vs == [] then Scan([], cache, false)
    else
      var m := ManipulateWith(db, cfg, cache, vs[0], First(ls));
      if m.threw then m
      else
        var rest := ScanWith(Exec(db, m.stmts), cfg, m.cache, vs[1..], Rest(ls));
        Scan(m.stmts + rest.stmts, rest.cache, rest.threw)
  }

  ghost function RunStmtsWith(db: Db, run: Run, ls: seq<Loss>): seq<Stmt> {
    var scan := ScanWith(db, run.cfg, map[], run.Reached(), ls);
    if run.end.CutAfter? && run.end.statements <= |scan.stmts| then scan.stmts[..run.end.statements]
    else if run.end.CutAfter? || scan.threw then scan.stmts
    else scan.stmts + [run.Closing()]
  }

  ghost function AfterRunWith(db: Db, run: Run, ls: seq<Loss>): Db {
    Exec(db, RunStmtsWith(db, run, ls))
  }

  // ---------------------------------------------------------------- nothing lost

  ghost predicate Clean(l: Loss) {
    l.root.Kept? && l.entry.Kept? && forall n :: !LostAt(l.blocks, n)
  }

  ghost predicate AllClean(ls: seq<Loss>) {
    forall i :: 0 <= i < |ls| ==> Clean(ls[i])
  }

  lemma {:induction false} BlocksClean(db: Db, hash: Hasher, id: nat, chunks: seq<Bytes>, n: nat, lost: seq<bool>)
    requires n <= |chunks| && forall k :: !LostAt(lost, k)
    ensures BlockStmtsWith(db, hash, id, chunks, n, lost) == BlockStmts(db, hash, id, chunks, n)
    decreases |chunks| - n
  {
    if n < |chunks| {
      assert !LostAt(lost, n);
      BlocksClean(Exec(db, OneBlockStmts(db, hash, id, n + 1, chunks[n])), hash, id, chunks, n + 1, lost);
    }
  }

  lemma VisitClean(db: Db, cfg: Config, cache: Cache, v: Visit, l: Loss)
    requires Clean(l)
    ensures ManipulateWith(db, cfg, cache, v, l) == Manipulate(db, cfg, cache, v)
  {
    if v.node.accessible && (v.dir in cache || v.level <= 1) && v.node.File? {
      var mid, parent := Exec(db, ParentStmts(db, cfg, cache, v)), ParentId(db, cfg, cache, v);
      var entry := EntryStmts(mid, cfg, NodeCols(parent, v.node), v.node.ver.mtime);
      BlocksClean(Exec(mid, entry), cfg.hash, EntryId(mid, cfg, NodeCols(parent, v.node)), Delivered(v.node), 0, l.blocks);
    }
  }

  lemma {:induction false} ScanClean(db: Db, cfg: Config, cache: Cache, vs: seq<Visit>, ls: seq<Loss>)
    requires AllClean(ls)
    ensures ScanWith(db, cfg, cache, vs, ls) == ScanAll(db, cfg, cache, vs)
    decreases |vs|
  {
    if vs != [] {
      hide ManipulateWith; hide Manipulate;
      VisitClean(db, cfg, cache, vs[0], First(ls));
      var m := Manipulate(db, cfg, cache, vs[0]);
      ScanClean(Exec(db, m.stmts), cfg, m.cache, vs[1..], Rest(ls));
    }
  }

  /** With nothing lost a run is the run of module Pass. */
  lemma NothingLost(db: Db, run: Run, ls: seq<Loss>)
    requires AllClean(ls)
    ensures RunStmtsWith(db, run, ls) == RunStmts(db, run) && AfterRunWith(db, run, ls) == AfterRun(db, run)
  {
    ScanClean(db, run.cfg, map[], run.Reached(), ls);
  }

  // ---------------------------------------------------------------- taking sequences apart

  lemma StmtsAssoc(a: seq<Stmt>, b: seq<Stmt>, c: seq<Stmt>)
    ensures a + (b + c) == a + b + c
  {
  }

  /** The blocks from index `m` to index `n`, one more that is lost or not, and whatever follows it. */
  lemma {:induction false} NextBlockWith(db: Db, hash: Hasher, id: nat, chunks: seq<Bytes>, m: nat, n: nat, lost: seq<bool>, b: bool)
    requires m <= n < |chunks| && |lost| == n
    ensures var some := BlockStmtsWith(db, hash, id, chunks[..n], m, lost);
            var one := OneBlockStmtsWith(Exec(db, some), hash, id, n + 1, chunks[n], b);
            && BlockStmtsWith(db, hash, id, chunks[..n + 1], m, lost + [b]) == some + one
            && some + one <= BlockStmtsWith(db, hash, id, chunks, m, lost + [b])
    decreases n - m
  {
    hide OneBlockStmtsWith;
    var more := lost + [b];
    if m == n {
      var one := OneBlockStmtsWith(db, hash, id, n + 1, chunks[n], b);
      assert LostAt(more, n) == b && chunks[..n + 1][n] == chunks[n];
      assert [] + one == one && one + [] == one;
      assert BlockStmtsWith(Exec(db, one), hash, id, chunks[..n + 1], n + 1, more) == [];
    } else {
      hide Exec;
      var first := OneBlockStmtsWith(db, hash, id, m + 1, chunks[m], LostAt(lost, m));
      assert LostAt(more, m) == LostAt(lost, m) && chunks[..n][m] == chunks[m] == chunks[..n + 1][m];
      var mid := Exec(db, first);
      NextBlockWith(mid, hash, id, chunks, m + 1, n, lost, b);
      var some := BlockStmtsWith(mid, hash, id, chunks[..n], m + 1, lost);
      ExecConcat(db, first, some);
      var one := OneBlockStmtsWith(Exec(mid, some), hash, id, n + 1, chunks[n], b);
      StmtsAssoc(first, some, one);
    }
  }

  function Drop(ls: seq<Loss>, n: nat): seq<Loss> {
    if n <= |ls| then ls[n..] else []
  }

  /** A scan can be taken in two parts, unless the first one throws. */
  lemma {:induction false} ScanConcat(db: Db, cfg: Config, cache: Cache, a: seq<Visit>, b: seq<Visit>, ls: seq<Loss>)
    requires !ScanWith(db, cfg, cache, a, ls).threw
    ensures var one := ScanWith(db, cfg, cache, a, ls);
            var two := ScanWith(Exec(db, one.stmts), cfg, one.cache, b, Drop(ls, |a|));
            ScanWith(db, cfg, cache, a + b, ls) == Scan(one.stmts + two.stmts, two.cache, two.threw)
    decreases |a|
  {
    hide ManipulateWith;
    if a == [] {
      assert a + b == b;
      assert [] + ScanWith(db, cfg, cache, b, ls).stmts == ScanWith(db, cfg, cache, b, ls).stmts;
      assert Drop(ls, 0) == ls;
    } else {
      hide Exec;
      var m := ManipulateWith(db, cfg, cache, a[0], First(ls));
      assert (a + b)[0] == a[0] && (a + b)[1..] == a[1..] + b && Drop(Rest(ls), |a| - 1) == Drop(ls, |a|);
      var rest := ScanWith(Exec(db, m.stmts), cfg, m.cache, a[1..], Rest(ls));
      ScanConcat(Exec(db, m.stmts), cfg, m.cache, a[1..], b, Rest(ls));
      ExecConcat(db, m.stmts, rest.stmts);
      StmtsAssoc(m.stmts, rest.stmts, ScanWith(Exec(db, m.stmts + rest.stmts), cfg, rest.cache, b, Drop(ls, |a|)).stmts);
    }
  }

  lemma FirstOfMore(ls: seq<Loss>, more: seq<Loss>)
    requires ls != []
    ensures First(ls + more) == First(ls) && Rest(ls + more) == Rest(ls) + more && |Rest(ls)| == |ls| - 1
  {
  }

  /** Losses beyond the visits of a scan do not matter to it. */
  lemma {:induction false} ScanPrefix(db: Db, cfg: Config, cache: Cache, vs: seq<Visit>, ls: seq<Loss>, more: seq<Loss>)
    requires |ls| == |vs|
    ensures ScanWith(db, cfg, cache, vs, ls + more) == ScanWith(db, cfg, cache, vs, ls)
    decreases |vs|
  {
    if vs != [] {
      hide ManipulateWith; hide Exec;
      FirstOfMore(ls, more);
      hide First; hide Rest;
      var m := ManipulateWith(db, cfg, cache, vs[0], First(ls));
      ScanPrefix(Exec(db, m.stmts), cfg, m.cache, vs[1..], Rest(ls), more);
    }
  }

  /** One more visit with its losses, and whatever follows it. */
  lemma ScanNext(db: Db, cfg: Config, vs: seq<Visit>, i: nat, ls: seq<Loss>, l: Loss)
    requires i == |ls| < |vs| && !ScanWith(db, cfg, map[], vs[..i], ls).threw
    ensures var one := ScanWith(db, cfg, map[], vs[..i], ls);
            var m := ManipulateWith(Exec(db, one.stmts), cfg, one.cache, vs[i], l);
            && ScanWith(db, cfg, map[], vs[..i + 1], ls + [l]) == Scan(one.stmts + m.stmts, m.cache, m.threw)
            && one.stmts + m.stmts <= ScanWith(db, cfg, map[], vs, ls + [l]).stmts
            && (m.threw ==> ScanWith(db, cfg, map[], vs, ls + [l]).threw)
  {
    hide ManipulateWith; hide Exec;
    var one := ScanWith(db, cfg, map[], vs[..i], ls);
    var from := Exec(db, one.stmts);
    assert vs[..i + 1] == vs[..i] + [vs[i]] && vs == vs[..i] + vs[i..] && Drop(ls + [l], i) == [l];
    ScanPrefix(db, cfg, map[], vs[..i], ls, [l]);
    ScanConcat(db, cfg, map[], vs[..i], [vs[i]], ls + [l]);
    ScanConcat(db, cfg, map[], vs[..i], vs[i..], ls + [l]);
    var m := ManipulateWith(from, cfg, one.cache, vs[i], l);
    ScanHead(from, cfg, one.cache, [vs[i]], l);
    ScanHead(from, cfg, one.cache, vs[i..], l);
  }

  lemma ScanHead(db: Db, cfg: Config, cache: Cache, vs: seq<Visit>, l: Loss)
    requires vs != []
    ensures var m, scan := ManipulateWith(db, cfg, cache, vs[0], l), ScanWith(db, cfg, cache, vs, [l]);
            && m.stmts <= scan.stmts && (m.threw ==> scan.threw) && (|vs| == 1 ==> scan == m)
  {
    hide ManipulateWith; hide Exec;
    var m := ManipulateWith(db, cfg, cache, vs[0], l);
    assert m.stmts + [] == m.stmts;
  }
}
