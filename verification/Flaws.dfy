/**
 * Histories of passes, from the empty database, that end where the design did not mean to end:
 * the exact conditions proved elsewhere are not vacuous.
 */
module Flaws {
  import opened Common
  import opened Tree
  import opened Store
  import opened Pass
  import opened Integrity
  import opened Paths
  import opened Stabilise
  import opened Incremental
  import opened Current
  import opened Losses
  import opened Damage
  import opened LostDigests

  const PATH: Path := ["r", "a"]

  function FileAt(ver: Version): Node {
    File("a", ver, true, ReadsToEnd)
  }

  function VisitOf(n: Node): Visit {
    Visit(["r"], 1, n)
  }

  /** A complete `modified_only` pass over a root that contains one entry. */
  function PassOver(hash: Hasher, rowids: set<nat> -> nat, n: Node): Run {
    Run(Config(true, rowids, hash), "r", [n], Completes)
  }

  /** A one-byte file, first seen at time 5. */
  const ORIGINAL: Node := FileAt(Version(5, 1, [[0]]))

  lemma OneVisit(hash: Hasher, rowids: set<nat> -> nat, n: Node)
    requires FreshIds(rowids) && n.name == "a" && ValidChunks(n.ver.chunks)
    requires if n.Dir? then n.kids == [] else n.io.ReadsToEnd?
    ensures var run := PassOver(hash, rowids, n);
            run.Valid() && run.Visits() == run.Reached() == [VisitOf(n)] && VisitOf(n).FullPath() == PATH
  {
    var opts := IndexerOptions();
    assert [n][1..] == [];
    assert Preorder([], ["r"], opts) == [] && Preorder([], ["r", "a"], opts) == [];
    assert !Skipped("a") && ["r"] + ["a"] == ["r", "a"];
    assert Preorder([n], ["r"], opts) ==
             (if Reported(n, opts) then [VisitOf(n)] else []) +
             (if Descends(n, 1, opts) then Preorder(n.kids, ["r"] + ["a"], opts) else []) + Preorder([], ["r"], opts);
  }

  lemma NothingRefused(db: Db, cfg: Config, v: Visit)
    requires v.level <= 1
    ensures !Manipulate(db, cfg, map[], v).threw
  {
  }

  lemma OneScanned(db: Db, cfg: Config, cache: Cache, v: Visit)
    ensures ScanAll(db, cfg, cache, [v]) == Manipulate(db, cfg, cache, v)
  {
    hide Manipulate; hide Exec;
    var m := Manipulate(db, cfg, cache, v);
    assert [v][1..] == [] && m.stmts + [] == m.stmts;
    assert ScanAll(Exec(db, m.stmts), cfg, m.cache, []) == Scan([], m.cache, false);
  }

  /** A pass that makes one visit is that visit and the sweep. */
  lemma OnePass(db: Db, run: Run, v: Visit)
    requires Structure(db) && run.Valid() && run.end.Completes? && run.Visits() == [v] && v.node.accessible && v.level == 1 == |v.dir|
    ensures AfterRun(db, run) == Apply(Exec(db, Manipulate(db, run.cfg, map[], v).stmts), Sweep)
    ensures !ScanAll(db, run.cfg, map[], run.Visits()).threw
  {
    NothingRefused(db, run.cfg, v);
    OneScanned(db, run.cfg, map[], v);
    hide Manipulate; hide ScanAll; hide Apply; hide Exec; hide Preorder;
    var m := Manipulate(db, run.cfg, map[], v);
    ExecConcat(db, m.stmts, [Sweep]);
    ExecFew(Exec(db, m.stmts), Sweep, Sweep, Sweep);
  }

  lemma EmptyIsSound(hash: Hasher)
    ensures Structure(EMPTY) && HistoryAllowed(OnlyModified, hash, [])
  {
  }

  /** After a first pass the row of the file says what the file is. */
  lemma FirstPass(hash: Hasher, rowids: set<nat> -> nat) returns (id: nat)
    requires FreshIds(rowids)
    ensures var db := AfterRun(EMPTY, PassOver(hash, rowids, ORIGINAL));
            && Structure(db) && Denotes(db, id, PATH) && id in db.entries && Records(hash, db, id, ORIGINAL)
            && RowAt(db, PATH) == Some(db.entries[id])
  {
    var run := PassOver(hash, rowids, ORIGINAL);
    var none: seq<Run> := [];
    OneVisit(hash, rowids, ORIGINAL);
    assert none + [run] == [run];
    OnlyOneSeen(run, VisitOf(ORIGINAL));
    FastPassIsUpToDate(hash, [], run, VisitOf(ORIGINAL));
    var db := AfterRun(EMPTY, run);
    id :| Denotes(db, id, PATH) && id in db.entries && Records(hash, db, id, ORIGINAL);
    EmptyIsSound(hash);
    OnePass(EMPTY, run, VisitOf(ORIGINAL));
    SweptPass(EMPTY, run, PATH);
    RowAtIs(db, id, PATH);
  }

  lemma OnlyOneSeen(run: Run, v: Visit)
    requires run.Visits() == [v]
    ensures FaithfulTimes(Log([run]))
    ensures forall t, w :: SeenAt(Log([run]), t, w) ==> t == 0 && w == v
  {
    assert Log([run]) == [[v]];
  }

  // ---------------------------------------------------------------- a file becomes a directory

  /** A directory that replaces the file, with the same time. */
  const REPLACEMENT: Node := Dir("a", Version(5, 0, []), true, [])

  /** The file is replaced by a directory with the same time: after a complete pass the row still says file. */
  lemma StaleKind(hash: Hasher, rowids: set<nat> -> nat)
    requires FreshIds(rowids)
    ensures var db := AfterHistory([PassOver(hash, rowids, ORIGINAL)]);
            KindHidden(db, PassOver(hash, rowids, REPLACEMENT).cfg, VisitOf(REPLACEMENT))
    ensures var r := RowAt(AfterHistory([PassOver(hash, rowids, ORIGINAL), PassOver(hash, rowids, REPLACEMENT)]), PATH);
            r.Some? && !r.value.isDir
  {
    var first, second := PassOver(hash, rowids, ORIGINAL), PassOver(hash, rowids, REPLACEMENT);
    var id := FirstPass(hash, rowids);
    var db := AfterRun(EMPTY, first);
    HistoryOfTwo(first, second);
    OneVisit(hash, rowids, REPLACEMENT);
    OnePass(db, second, VisitOf(REPLACEMENT));
    KindExactly(db, second, VisitOf(REPLACEMENT));
  }

  lemma HistoryOfTwo(first: Run, second: Run)
    ensures AfterHistory([first]) == AfterRun(EMPTY, first)
    ensures AfterHistory([first, second]) == AfterRun(AfterRun(EMPTY, first), second)
  {
    assert [first][..0] == [] && [first, second][..1] == [first];
  }

  // ---------------------------------------------------------------- one more visit of the file

  /** What a second visit of the file leaves, in terms of the row found at its path. */
  lemma SecondPass(db: Db, run: Run, n: Node, id: nat) returns (parent: nat)
    requires Structure(db) && run.Valid() && run.end.Completes? && run.Visits() == [VisitOf(n)] && VisitOf(n).FullPath() == PATH
    requires n.accessible && n.File? && n.io.ReadsToEnd? && Denotes(db, id, PATH)
    ensures var mid := Exec(db, ParentStmts(db, run.cfg, map[], VisitOf(n)));
            var to := Exec(mid, NodeStmts(mid, run.cfg, parent, n));
            && Structure(mid) && SameAt(db, mid, id) && Find(mid, parent, n.name) == Some(id) && Structure(to)
            && AfterRun(db, run) == Apply(to, Sweep) && Marked(to, id) && Denotes(to, id, PATH)
  {
    var v := VisitOf(n);
    var mid := Exec(db, ParentStmts(db, run.cfg, map[], v));
    parent := ParentId(db, run.cfg, map[], v);
    OnePass(db, run, v);
    ManipulateSplit(db, run.cfg, map[], v);
    ParentGrows(db, run.cfg, map[], v);
    ParentElsewhere(db, run.cfg, map[], v, id, PATH);
    DenotesKept(db, mid, id, PATH);
    FoundThere(mid, parent, v, id);
    NodeGrows(mid, run.cfg, parent, v);
    VisitStructure(db, run.cfg, map[], v);
  }

  lemma FoundThere(db: Db, parent: nat, v: Visit, id: nat)
    requires Structure(db) && v.dir != [] && Denotes(db, parent, v.dir) && Denotes(db, id, v.FullPath())
    ensures Find(db, parent, v.node.name) == Some(id)
  {
    assert v.FullPath()[..|v.dir|] == v.dir;
    DenotesOneRow(db, db.entries[id].parent, parent, v.dir);
    assert IsKey(db, id, parent, v.node.name);
    var f := Find(db, parent, v.node.name);
    assert SameKey(db, id, f.value);
  }

  // ---------------------------------------------------------------- a file is truncated

  const TRUNCATED: Node := FileAt(Version(6, 0, []))

  /** The file is truncated to nothing: its row is up to date after the next pass, its block row is the old one. */
  lemma StaleBlocks(hash: Hasher, rowids: set<nat> -> nat) returns (id: nat)
    requires FreshIds(rowids)
    ensures var db := AfterHistory([PassOver(hash, rowids, ORIGINAL), PassOver(hash, rowids, TRUNCATED)]);
            && Denotes(db, id, PATH) && id in db.entries && Records(hash, db, id, TRUNCATED)
            && (id, 1) in db.blocks && db.blocks[(id, 1)] == hash.block(Pad([0]))
  {
    var first, second := PassOver(hash, rowids, ORIGINAL), PassOver(hash, rowids, TRUNCATED);
    id := FirstPass(hash, rowids);
    var db := AfterRun(EMPTY, first);
    HistoryOfTwo(first, second);
    OneVisit(hash, rowids, TRUNCATED);
    var parent := SecondPass(db, second, TRUNCATED, id);
    var mid := Exec(db, ParentStmts(db, second.cfg, map[], VisitOf(TRUNCATED)));
    var to := Exec(mid, NodeStmts(mid, second.cfg, parent, TRUNCATED));
    NodeEffect(mid, second.cfg, parent, TRUNCATED);
    SweepKeepsRow(to, id);
    OldBlock(hash, db, mid, to, id);
  }

  lemma OldBlock(hash: Hasher, db: Db, mid: Db, to: Db, id: nat)
    requires id in db.entries && Records(hash, db, id, ORIGINAL) && SameAt(db, mid, id)
    requires forall k: (nat, nat) :: (k in to.blocks <==> k in mid.blocks) && (k in mid.blocks ==> to.blocks[k] == mid.blocks[k])
    requires RowKept(to, Apply(to, Sweep), id)
    ensures (id, 1) in Apply(to, Sweep).blocks && Apply(to, Sweep).blocks[(id, 1)] == hash.block(Pad([0]))
  {
    hide Apply; hide Pad;
    assert BlocksAre(hash, db, id, [[0]], 1);
    assert (id, 1) in db.blocks && (id, 1) in mid.blocks && (id, 1) in to.blocks;
  }

  // ---------------------------------------------------------------- a file's time becomes zero

  const TIMELESS: Node := FileAt(Version(0, 0, []))

  /**
   * The file is emptied and its time becomes zero: after the next pass the row carries a digest
   * that, with the size beside it, describes no version any pass could see.
   */
  lemma LyingDigest(hash: Hasher, rowids: set<nat> -> nat) returns (id: nat)
    requires FreshIds(rowids)
    ensures var history := [PassOver(hash, rowids, ORIGINAL), PassOver(hash, rowids, TIMELESS)];
            var db := AfterHistory(history);
            && Denotes(db, id, PATH) && id in db.entries && db.entries[id].digest.Some?
            && forall t, v :: SeenAt(Log(history), t, v) && v.node.File? ==> !Records(hash, db, id, v.node)
  {
    hide Exec; hide Structure; hide Denotes; hide NodeStmts; hide Records; hide Apply;
    var first, second := PassOver(hash, rowids, ORIGINAL), PassOver(hash, rowids, TIMELESS);
    id := FirstPass(hash, rowids);
    var db := AfterRun(EMPTY, first);
    HistoryOfTwo(first, second);
    OneVisit(hash, rowids, ORIGINAL);
    OneVisit(hash, rowids, TIMELESS);
    Touched(hash, db, second, id);
    assert Log([first, second]) == [[VisitOf(ORIGINAL)], [VisitOf(TIMELESS)]];
    NotRecorded(hash, AfterRun(db, second), id);
  }

  lemma Touched(hash: Hasher, db: Db, run: Run, id: nat)
    requires Structure(db) && run.Valid() && run.cfg.modifiedOnly && run.end.Completes?
    requires run.Visits() == [VisitOf(TIMELESS)] && VisitOf(TIMELESS).FullPath() == PATH
    requires Denotes(db, id, PATH) && id in db.entries && Records(hash, db, id, ORIGINAL)
    ensures var to := AfterRun(db, run);
            && Denotes(to, id, PATH) && id in to.entries
            && to.entries[id].mtime == Some(0) && to.entries[id].size == Some(1) && to.entries[id].digest.Some?
  {
    hide Exec; hide Denotes; hide NodeStmts; hide Apply; hide AfterRun; hide BlocksAre;
    var parent := SecondPass(db, run, TIMELESS, id);
    var mid := Exec(db, ParentStmts(db, run.cfg, map[], VisitOf(TIMELESS)));
    TouchedAndFinished(mid, run.cfg, parent, id);
    SweepKeepsRow(Exec(mid, NodeStmts(mid, run.cfg, parent, TIMELESS)), id);
  }

  lemma NotRecorded(hash: Hasher, db: Db, id: nat)
    requires id in db.entries && db.entries[id].mtime == Some(0) && db.entries[id].size == Some(1)
    ensures forall t, v :: SeenAt([[VisitOf(ORIGINAL)], [VisitOf(TIMELESS)]], t, v) && v.node.File? ==> !Records(hash, db, id, v.node)
  {
    hide BlocksAre;
    forall t, v | SeenAt([[VisitOf(ORIGINAL)], [VisitOf(TIMELESS)]], t, v) && v.node.File?
      ensures !Records(hash, db, id, v.node)
    {
      assert v == VisitOf(ORIGINAL) || v == VisitOf(TIMELESS);
    }
  }

  /** The row is only touched, and then finished with the new digest and the time zero. */
  lemma TouchedAndFinished(db: Db, cfg: Config, parent: nat, id: nat)
    requires BlocksOwned(db) && FreshIds(cfg.rowids) && cfg.modifiedOnly && Find(db, parent, "a") == Some(id)
    requires db.entries[id].mtime == Some(5) && db.entries[id].size == Some(1)
    ensures var to := Exec(db, NodeStmts(db, cfg, parent, TIMELESS));
            && id in to.entries && to.entries[id].mtime == Some(0) && to.entries[id].size == Some(1) && to.entries[id].digest.Some?
  {
    hide NodeStmts;
    NodeEffect(db, cfg, parent, TIMELESS);
  }

  // ---------------------------------------------------------------- a sweep that fails

  /** The file as it was, but the pass may not read it. */
  const HIDDEN: Node := File("a", ORIGINAL.ver, false, ReadsToEnd)

  /** A pass that finds the file inaccessible, and whose sweep is committed after its first DELETE. */
  function HalfSwept(hash: Hasher, rowids: set<nat> -> nat): Run {
    PassOver(hash, rowids, HIDDEN).(end := SweepFails(1, false))
  }

  lemma HalfSweptPass(hash: Hasher, rowids: set<nat> -> nat, db: Db)
    requires FreshIds(rowids)
    ensures HalfSwept(hash, rowids).Visits() == [VisitOf(HIDDEN)]
    ensures AfterRun(db, HalfSwept(hash, rowids)) == Apply(db, SweepBlocks)
  {
    hide Apply;
    var run, v := HalfSwept(hash, rowids), VisitOf(HIDDEN);
    OneVisit(hash, rowids, HIDDEN);
    assert run.Visits() == PassOver(hash, rowids, HIDDEN).Visits() == [v] && [v][..1] == [v];
    hide Preorder;
    assert Manipulate(db, run.cfg, map[], v) == Scan([], map[], false);
    OneScanned(db, run.cfg, map[], v);
    assert [] + [SweepBlocks] == [SweepBlocks];
    ExecFew(db, SweepBlocks, SweepBlocks, SweepBlocks);
  }

  /** After the first pass every row is unmarked. */
  lemma FirstPassSwept(hash: Hasher, rowids: set<nat> -> nat, id: nat)
    requires FreshIds(rowids)
    requires var db := AfterRun(EMPTY, PassOver(hash, rowids, ORIGINAL)); id in db.entries && RowAt(db, PATH) == Some(db.entries[id])
    ensures AfterRun(EMPTY, PassOver(hash, rowids, ORIGINAL)).entries[id].alive
  {
    var run := PassOver(hash, rowids, ORIGINAL);
    OneVisit(hash, rowids, ORIGINAL);
    EmptyIsSound(hash);
    OnePass(EMPTY, run, VisitOf(ORIGINAL));
    SweptPass(EMPTY, run, PATH);
  }

  /** The row is as it was, and its block row is gone. */
  ghost predicate Stripped(hash: Hasher, db: Db, id: nat) {
    && Structure(db) && Denotes(db, id, PATH) && id in db.entries && (id, 1) !in db.blocks
    && db.entries[id].mtime == Some(5) && db.entries[id].digest == Some(hash.file(PadAll([[0]])))
  }

  lemma StrippedBy(hash: Hasher, db: Db, id: nat)
    requires Structure(db) && Denotes(db, id, PATH) && id in db.entries && db.entries[id].alive && Records(hash, db, id, ORIGINAL)
    ensures Stripped(hash, Apply(db, SweepBlocks), id)
  {
    hide Structure; hide Denotes; hide PadAll; hide BlocksAre;
    SweepBlocksKeepsStructure(db);
    DenotesAgree(db, Apply(db, SweepBlocks));
  }

  /** A fast pass over such tables finds the time unchanged and does not bring the block row back. */
  lemma StaysStripped(hash: Hasher, rowids: set<nat> -> nat, db: Db, id: nat)
    requires FreshIds(rowids) && Stripped(hash, db, id)
    ensures var to := AfterRun(db, PassOver(hash, rowids, ORIGINAL)); Structure(to) && Denotes(to, id, PATH) && (id, 1) !in to.blocks
  {
    hide NodeStmts; hide Denotes; hide PadAll; hide Structure; hide Exec; hide Preorder; hide Manipulate; hide ScanAll; hide AfterRun;
    var run, v := PassOver(hash, rowids, ORIGINAL), VisitOf(ORIGINAL);
    OneVisit(hash, rowids, ORIGINAL);
    var parent := SecondPass(db, run, ORIGINAL, id);
    var mid := Exec(db, ParentStmts(db, run.cfg, map[], v));
    OwnsBlocks(mid);
    TouchOnRow(mid, run.cfg, parent, ORIGINAL);
    var to := Exec(mid, NodeStmts(mid, run.cfg, parent, ORIGINAL));
    SweepKeepsRow(to, id);
    SweepKeepsStructure(to);
  }

  /** A full pass brings it back. */
  lemma FullPassRestores(hash: Hasher, rowids: set<nat> -> nat, db: Db) returns (id: nat)
    requires FreshIds(rowids) && Structure(db)
    ensures var run := PassOver(hash, rowids, ORIGINAL);
            var to := AfterRun(db, run.(cfg := FullConfig(run.cfg)));
            Denotes(to, id, PATH) && (id, 1) in to.blocks
  {
    hide Denotes; hide PadAll; hide Structure; hide Exec; hide Manipulate; hide AfterRun;
    var fast, v := PassOver(hash, rowids, ORIGINAL), VisitOf(ORIGINAL);
    var full := fast.(cfg := FullConfig(fast.cfg));
    OneVisit(hash, rowids, ORIGINAL);
    assert full.Visits() == fast.Visits();
    hide Preorder;
    OnePass(db, full, v);
    FullPassIsUpToDate(db, full, v);
    var to := AfterRun(db, full);
    id :| Denotes(to, id, PATH) && id in to.entries && Records(hash, to, id, ORIGINAL);
    assert BlocksAre(hash, to, id, [[0]], 1);
  }

  /**
   * The file is recorded; then a pass finds it inaccessible, and its sweep throws after the first
   * DELETE and is committed. The row keeps time and digest without the block row, which is no
   * version of the file; and from then on a fast pass and a full pass over the file as it was differ.
   */
  lemma HalfSweep(hash: Hasher, rowids: set<nat> -> nat) returns (id: nat)
    requires FreshIds(rowids)
    ensures var history := [PassOver(hash, rowids, ORIGINAL), HalfSwept(hash, rowids)];
            var db := AfterHistory(history);
            && Stripped(hash, db, id)
            && forall t, v :: SeenAt(Log(history), t, v) && v.node.File? ==> !Records(hash, db, id, v.node)
    ensures var db, fast := AfterHistory([PassOver(hash, rowids, ORIGINAL), HalfSwept(hash, rowids)]), PassOver(hash, rowids, ORIGINAL);
            AfterRun(db, fast) != AfterRun(db, fast.(cfg := FullConfig(fast.cfg)))
  {
    hide Denotes; hide PadAll; hide Structure; hide Exec; hide Preorder; hide AfterRun; hide Apply;
    var first, second := PassOver(hash, rowids, ORIGINAL), HalfSwept(hash, rowids);
    id := FirstPass(hash, rowids);
    FirstPassSwept(hash, rowids, id);
    HistoryOfTwo(first, second);
    var before := AfterRun(EMPTY, first);
    HalfSweptPass(hash, rowids, before);
    StrippedBy(hash, before, id);
    var db := AfterHistory([first, second]);
    StaysStripped(hash, rowids, db, id);
    var i := FullPassRestores(hash, rowids, db);
    if AfterRun(db, first) == AfterRun(db, first.(cfg := FullConfig(first.cfg))) {
      OneRowPerPath(AfterRun(db, first));
    }
    OneVisit(hash, rowids, ORIGINAL);
    assert Log([first, second]) == [[VisitOf(ORIGINAL)], [VisitOf(HIDDEN)]];
    StrippedIsNoVersion(hash, db, id);
  }

  lemma StrippedIsNoVersion(hash: Hasher, db: Db, id: nat)
    requires Stripped(hash, db, id)
    ensures forall t, v :: SeenAt([[VisitOf(ORIGINAL)], [VisitOf(HIDDEN)]], t, v) && v.node.File? ==> !Records(hash, db, id, v.node)
  {
    hide Structure; hide PadAll; hide Pad;
    assert !BlocksAre(hash, db, id, [[0]], 1);
    forall t, v | SeenAt([[VisitOf(ORIGINAL)], [VisitOf(HIDDEN)]], t, v) && v.node.File?
      ensures !Records(hash, db, id, v.node)
    {
      assert v == VisitOf(ORIGINAL);
    }
  }

  // ---------------------------------------------------------------- what the pass does not notice losing

  lemma NotThrown(db: Db, cfg: Config, cache: Cache, v: Visit, l: Loss)
    requires v.node.accessible && v.level <= 1
    ensures !ManipulateWith(db, cfg, cache, v, l).threw
  {
    hide NodeStmtsWith; hide ParentStmtsWith; hide Exec;
  }

  /** A scan of one visit, with its losses. */
  lemma OneVisitWith(db: Db, run: Run, v: Visit, l: Loss)
    requires run.Valid() && run.end.Completes? && run.Visits() == [v] && v.node.accessible && v.level == 1 == |v.dir|
    ensures AfterRunWith(db, run, [l]) == Apply(Exec(db, ManipulateWith(db, run.cfg, map[], v, l).stmts), Sweep)
  {
    NotThrown(db, run.cfg, map[], v, l);
    hide ManipulateWith; hide Apply; hide Exec; hide Preorder;
    var m := ManipulateWith(db, run.cfg, map[], v, l);
    OneScan(db, run.cfg, map[], v, [l]);
    hide ScanWith;
    ExecConcat(db, m.stmts, [Sweep]);
    ExecFew(Exec(db, m.stmts), Sweep, Sweep, Sweep);
  }

  const FIRST_BLOCK_LOST: Loss := Loss(Kept, Kept, [true])

  /** The only block of a new file is lost: the row carries time and digest, and there is no block row. */
  lemma MissingBlock(hash: Hasher, rowids: set<nat> -> nat) returns (id: nat)
    requires FreshIds(rowids)
    ensures var db := AfterRunWith(EMPTY, PassOver(hash, rowids, ORIGINAL), [FIRST_BLOCK_LOST]);
            && Denotes(db, id, PATH) && id in db.entries && (id, 1) !in db.blocks
            && db.entries[id].mtime == Some(5) && db.entries[id].digest == Some(hash.file(PadAll([[0]])))
  {
    hide EntryStmtsWith; hide EntryIdWith; hide FileStmtsWith; hide ParentStmtsWith; hide ParentIdWith; hide Exec; hide PadAll; hide Denotes; hide Structure;
    var run, v := PassOver(hash, rowids, ORIGINAL), VisitOf(ORIGINAL);
    var cfg, l := run.cfg, FIRST_BLOCK_LOST;
    EmptyIsSound(hash);
    OneVisit(hash, rowids, ORIGINAL);
    OneVisitWith(EMPTY, run, v, l);
    CallbackSplit(EMPTY, cfg, map[], v, l);
    ParentDamage(EMPTY, cfg, map[], v, l);
    var mid, parent := Exec(EMPTY, ParentStmtsWith(EMPTY, cfg, map[], v, l)), ParentIdWith(EMPTY, cfg, map[], v, l);
    NothingStored(cfg, v, l);
    id := EntryIdWith(mid, cfg, NodeCols(parent, v.node), Kept);
    BlockLost(mid, cfg, parent, v, id);
  }

  /** From the empty database the root's row is all there is when the entry's turn comes. */
  lemma NothingStored(cfg: Config, v: Visit, l: Loss)
    requires FreshIds(cfg.rowids) && l.root.Kept?
    ensures var mid := Exec(EMPTY, ParentStmtsWith(EMPTY, cfg, map[], v, l));
            && mid.blocks == map[]
            && forall i :: i in mid.entries ==> i == ParentIdWith(EMPTY, cfg, map[], v, l) && mid.entries[i] == InsertedRow(RootCols(v.dir))
  {
    EntryEffect(EMPTY, cfg, RootCols(v.dir), 0);
  }

  lemma BlockLost(db: Db, cfg: Config, parent: nat, v: Visit, id: nat)
    requires Standing(db, cfg, parent, v) && v == VisitOf(ORIGINAL) && db.blocks == map[] && Find(db, parent, "a").None?
    requires id == EntryIdWith(db, cfg, NodeCols(parent, v.node), Kept)
    ensures var to := Apply(Exec(db, NodeStmtsWith(db, cfg, parent, v.node, FIRST_BLOCK_LOST)), Sweep);
            && Denotes(to, id, v.FullPath()) && id in to.entries && (id, 1) !in to.blocks
            && to.entries[id].mtime == Some(5) && to.entries[id].digest == Some(cfg.hash.file(PadAll([[0]])))
  {
    hide EntryStmtsWith; hide EntryIdWith; hide FileStmtsWith; hide BlockStmtsWith; hide Exec; hide PadAll; hide Denotes; hide Structure; hide Apply;
    var c, l := NodeCols(parent, v.node), FIRST_BLOCK_LOST;
    var entry := EntryStmtsWith(db, cfg, c, 5, Kept);
    var mid := Exec(db, entry);
    var file := FileStmtsWith(mid, cfg.hash, id, v.node, l.blocks);
    EntryIntegral(db, cfg, c, 5, Kept, v.dir);
    EntryLossExactly(db, cfg, c, 5, Kept, v.dir);
    OwnsBlocks(mid);
    FileLeft(mid, cfg.hash, id, v.node, l.blocks);
    FileKeepsKeys(mid, cfg.hash, id, v.node, l.blocks);
    DenotesKept(mid, Exec(mid, file), id, v.FullPath());
    BlocksLeft(mid, cfg.hash, id, [[0]], 0, l.blocks, 1);
    FileDamage(db, cfg, parent, v, l, map[]);
    assert NodeStmtsWith(db, cfg, parent, v.node, l) == entry + file;
    ExecConcat(db, entry, file);
    SweepKeepsRow(Exec(mid, file), id);
  }

  /** The row of a new file is lost: its block is stored under rowid 0. */
  lemma StrayBlock(hash: Hasher, rowids: set<nat> -> nat, fate: Fate)
    requires FreshIds(rowids) && !fate.Kept?
    ensures (0, 1) in AfterRunWith(EMPTY, PassOver(hash, rowids, ORIGINAL), [Loss(Kept, fate, [])]).blocks
  {
    hide EntryStmtsWith; hide EntryIdWith; hide FileStmtsWith; hide ParentStmtsWith; hide ParentIdWith; hide Exec; hide PadAll; hide Denotes; hide Structure; hide Apply;
    var run, v, l := PassOver(hash, rowids, ORIGINAL), VisitOf(ORIGINAL), Loss(Kept, fate, []);
    EmptyIsSound(hash);
    OneVisit(hash, rowids, ORIGINAL);
    OneVisitWith(EMPTY, run, v, l);
    CallbackSplit(EMPTY, run.cfg, map[], v, l);
    ParentDamage(EMPTY, run.cfg, map[], v, l);
    NothingStored(run.cfg, v, l);
    BlockAstray(Exec(EMPTY, ParentStmtsWith(EMPTY, run.cfg, map[], v, l)), run.cfg, ParentIdWith(EMPTY, run.cfg, map[], v, l), v, fate);
  }

  lemma BlockAstray(db: Db, cfg: Config, parent: nat, v: Visit, fate: Fate)
    requires Standing(db, cfg, parent, v) && v == VisitOf(ORIGINAL) && Find(db, parent, "a").None? && !fate.Kept?
    ensures (0, 1) in Apply(Exec(db, NodeStmtsWith(db, cfg, parent, v.node, Loss(Kept, fate, []))), Sweep).blocks
  {
    hide EntryStmtsWith; hide FileStmtsWith; hide BlockStmtsWith; hide Exec; hide PadAll; hide Denotes; hide Structure; hide Apply; hide Pad;
    var c := NodeCols(parent, v.node);
    var entry := EntryStmtsWith(db, cfg, c, 5, fate);
    var mid := Exec(db, entry);
    var file := FileStmtsWith(mid, cfg.hash, 0, v.node, []);
    EntryIntegral(db, cfg, c, 5, fate, v.dir);
    OwnsBlocks(mid);
    FileLeft(mid, cfg.hash, 0, v.node, []);
    BlocksLeft(mid, cfg.hash, 0, [[0]], 0, [], 1);
    assert NodeStmtsWith(db, cfg, parent, v.node, Loss(Kept, fate, [])) == entry + file;
    ExecConcat(db, entry, file);
    NoRowZero(mid);
    StraySpared(Exec(mid, file));
  }

  lemma StraySpared(db: Db)
    requires 0 !in db.entries && (0, 1) in db.blocks
    ensures (0, 1) in Apply(db, Sweep).blocks
  {
  }

  // ---------------------------------------------------------------- a lost directory

  const CHILD: Node := ORIGINAL
  const FOLDER: Node := Dir("d", Version(7, 0, []), true, [CHILD])
  const FOLDER_VISIT: Visit := Visit(["r"], 1, FOLDER)
  const CHILD_VISIT: Visit := Visit(["r", "d"], 2, CHILD)
  const FOLDER_PATH: Path := ["r", "d"]
  const CHILD_PATH: Path := ["r", "d", "a"]

  lemma TwoVisits(hash: Hasher, rowids: set<nat> -> nat, folder: Node)
    requires FreshIds(rowids) && folder.Dir? && folder.name == "d" && folder.kids == [CHILD] && folder.ver.chunks == []
    ensures var run := PassOver(hash, rowids, folder);
            run.Valid() && run.Visits() == run.Reached() == [Visit(["r"], 1, folder), CHILD_VISIT]
  {
    var opts := IndexerOptions();
    assert [folder][1..] == [] && [CHILD][1..] == [];
    assert Preorder([], ["r"], opts) == [] && Preorder([], ["r", "d"], opts) == [];
    assert !Skipped("a") && !Skipped("d") && ["r"] + ["d"] == ["r", "d"];
    assert Preorder([CHILD], ["r", "d"], opts) == [CHILD_VISIT] + [] + Preorder([], ["r", "d"], opts);
    assert Preorder([folder], ["r"], opts) == [Visit(["r"], 1, folder)] + Preorder([CHILD], ["r"] + ["d"], opts) + Preorder([], ["r"], opts);
  }

  /** A scan of two visits of which the first loses something. */
  lemma TwoVisitsWith(db: Db, run: Run, l: Loss)
    requires run.Valid() && run.end.Completes? && run.Visits() == run.Reached() == [FOLDER_VISIT, CHILD_VISIT]
    ensures var m := ManipulateWith(db, run.cfg, map[], FOLDER_VISIT, l);
            var n := ManipulateWith(Exec(db, m.stmts), run.cfg, m.cache, CHILD_VISIT, NONE);
            !m.threw && (!n.threw ==> AfterRunWith(db, run, [l]) == Apply(Exec(Exec(db, m.stmts), n.stmts), Sweep))
  {
    NotThrown(db, run.cfg, map[], FOLDER_VISIT, l);
    hide ManipulateWith; hide Apply; hide Exec; hide Preorder;
    var m := ManipulateWith(db, run.cfg, map[], FOLDER_VISIT, l);
    var n := ManipulateWith(Exec(db, m.stmts), run.cfg, m.cache, CHILD_VISIT, NONE);
    if !n.threw {
      OneScan(Exec(db, m.stmts), run.cfg, m.cache, CHILD_VISIT, []);
      FirstScan(db, run.cfg, map[], FOLDER_VISIT, [CHILD_VISIT], [l]);
      assert [FOLDER_VISIT] + [CHILD_VISIT] == [FOLDER_VISIT, CHILD_VISIT];
      hide ScanWith;
      ExecConcat(db, m.stmts, n.stmts);
      ExecConcat(db, m.stmts + n.stmts, [Sweep]);
      ExecFew(Exec(db, m.stmts + n.stmts), Sweep, Sweep, Sweep);
    }
  }

  lemma FirstScan(db: Db, cfg: Config, cache: Cache, v: Visit, vs: seq<Visit>, ls: seq<Loss>)
    requires !ManipulateWith(db, cfg, cache, v, First(ls)).threw
    ensures var m := ManipulateWith(db, cfg, cache, v, First(ls));
            var rest := ScanWith(Exec(db, m.stmts), cfg, m.cache, vs, Rest(ls));
            ScanWith(db, cfg, cache, [v] + vs, ls) == Scan(m.stmts + rest.stmts, rest.cache, rest.threw)
  {
    hide ManipulateWith; hide Exec;
    assert ([v] + vs)[0] == v && ([v] + vs)[1..] == vs;
  }

  lemma OneScan(db: Db, cfg: Config, cache: Cache, v: Visit, ls: seq<Loss>)
    requires !ManipulateWith(db, cfg, cache, v, First(ls)).threw
    ensures ScanWith(db, cfg, cache, [v], ls) == ManipulateWith(db, cfg, cache, v, First(ls))
  {
    hide ManipulateWith; hide Exec;
    var m := ManipulateWith(db, cfg, cache, v, First(ls));
    FirstScan(db, cfg, cache, v, [], ls);
    assert [v] + [] == [v] && m.stmts + [] == m.stmts;
  }

  /** The row of the folder, under the root's. */
  function FolderRow(root: nat): Row {
    InsertedRow(NodeCols(root, FOLDER))
  }

  /** After the first callback the root's row is there, the folder's is if it was written, and the folder is cached under rowid 0. */
  lemma FolderLost(cfg: Config, fate: Fate) returns (root: nat, folder: nat)
    requires FreshIds(cfg.rowids) && !fate.Kept?
    ensures var m := ManipulateWith(EMPTY, cfg, map[], FOLDER_VISIT, Loss(Kept, fate, []));
            var mid := Exec(EMPTY, m.stmts);
            && ["r", "d"] in m.cache && m.cache[["r", "d"]] == 0 && mid.blocks == map[]
            && root != 0 && folder != 0 && root != folder
            && mid.entries == (if fate.Dropped? then map[] else map[folder := FolderRow(root)])[root := InsertedRow(RootCols(["r"]))]
  {
    hide EntryStmts; hide Exec; hide NodeStmtsWith;
    var v, l := FOLDER_VISIT, Loss(Kept, fate, []);
    var mid := Exec(EMPTY, ParentStmtsWith(EMPTY, cfg, map[], v, l));
    root := ParentIdWith(EMPTY, cfg, map[], v, l);
    folder := cfg.rowids(mid.entries.Keys);
    CallbackSplit(EMPTY, cfg, map[], v, l);
    EntryEffect(EMPTY, cfg, RootCols(["r"]), 0);
    assert root in mid.entries.Keys;
    FolderCallback(mid, cfg, root, fate);
    assert ["r"] + ["d"] == ["r", "d"];
  }

  lemma FolderCallback(db: Db, cfg: Config, root: nat, fate: Fate)
    requires FreshIds(cfg.rowids) && !fate.Kept? && db.entries == map[root := InsertedRow(RootCols(["r"]))]
    ensures var to := Exec(db, NodeStmtsWith(db, cfg, root, FOLDER, Loss(Kept, fate, [])));
            && to.blocks == db.blocks
            && to.entries == (if fate.Dropped? then db.entries else db.entries[cfg.rowids(db.entries.Keys) := FolderRow(root)])
    ensures EntryIdWith(db, cfg, NodeCols(root, FOLDER), fate) == 0
  {
    hide EntryStmts; hide Exec;
    var c := NodeCols(root, FOLDER);
    assert forall i :: i in db.entries ==> db.entries[i].name == "r";
    assert Find(db, root, "d").None?;
    var entry := EntryStmtsWith(db, cfg, c, 7, fate);
    assert entry + [] == entry && NodeStmtsWith(db, cfg, root, FOLDER, Loss(Kept, fate, [])) == entry;
    if fate.Dropped? {
      ExecNone(db);
    } else {
      EntryEffect(db, cfg, c, 7);
    }
  }

  /** The second callback stores the file as a root. */
  lemma ChildMisplaced(db: Db, cfg: Config) returns (id: nat)
    requires FreshIds(cfg.rowids) && db.blocks == map[]
    requires forall i :: i in db.entries ==> db.entries[i].name != "a"
    ensures var to := Exec(db, NodeStmts(db, cfg, 0, CHILD));
            && id != 0 && id !in db.entries && to.entries.Keys == db.entries.Keys + {id}
            && to.entries[id].parent == 0 && to.entries[id].name == "a" && !to.entries[id].isDir && Marked(to, id)
            && forall i :: i in db.entries ==> to.entries[i] == db.entries[i]
  {
    hide NodeStmts;
    id := EntryId(db, cfg, NodeCols(0, CHILD));
    assert Find(db, 0, "a").None?;
    NodeEffect(db, cfg, 0, CHILD);
  }

  lemma Misplaced(db: Db, id: nat)
    requires Marked(db, id) && db.entries[id].parent == 0 && db.entries[id].name == "a" && !db.entries[id].isDir
    requires 0 !in db.entries && forall i :: i in db.entries && i != id ==> db.entries[i].name != "a"
    ensures var to := Apply(db, Sweep);
            && Denotes(to, id, ["a"]) && id in to.entries && !to.entries[id].isDir && !Structure(to)
            && forall i :: !Denotes(to, i, CHILD_PATH)
  {
    var to := Apply(db, Sweep);
    forall i
      ensures !Denotes(to, i, CHILD_PATH)
    {
      assert i in to.entries && to.entries[i].name == "a" ==> i == id;
      assert !Denotes(to, 0, CHILD_PATH[..2]);
    }
    assert id in to.entries && to.entries[id].parent == 0 && !to.entries[id].isDir;
  }

  /** The folder has a row in the end exactly if it was written. */
  lemma FolderThere(db: Db, root: nat, folder: nat, id: nat, fate: Fate)
    requires root != 0 && folder != 0 && root != folder && id != root && !fate.Kept?
    requires db.entries.Keys == (if fate.Dropped? then {root, id} else {root, folder, id}) && db.entries[id].name == "a"
    requires db.entries[root] == InsertedRow(RootCols(["r"])) && (fate.Unseen? ==> id != folder && db.entries[folder] == FolderRow(root))
    ensures HasRow(Apply(db, Sweep), FOLDER_PATH) <==> fate.Unseen?
  {
    var to := Apply(db, Sweep);
    assert FOLDER_PATH[..1] == ["r"];
    assert root in to.entries && Denotes(to, root, ["r"]);
    if fate.Unseen? {
      assert folder in to.entries && Denotes(to, folder, FOLDER_PATH);
    } else {
      assert forall i :: i in to.entries ==> to.entries[i].name != "d";
      assert forall i :: Denotes(to, i, FOLDER_PATH) ==> i in to.entries && to.entries[i].name == FOLDER_PATH[1];
    }
  }

  /**
   * The INSERT of a new directory is lost, or its rowid is not found after it: the file in it is
   * stored as a root of its own and has no row at its path, and the tables are no longer integral.
   */
  lemma MisplacedChild(hash: Hasher, rowids: set<nat> -> nat, fate: Fate) returns (id: nat)
    requires FreshIds(rowids) && !fate.Kept?
    ensures var db := AfterRunWith(EMPTY, PassOver(hash, rowids, FOLDER), [Loss(Kept, fate, [])]);
            && Denotes(db, id, ["a"]) && id in db.entries && !db.entries[id].isDir && !Structure(db)
            && !HasRow(db, CHILD_PATH)
            && (HasRow(db, FOLDER_PATH) <==> fate.Unseen?)
  {
    var run, l := PassOver(hash, rowids, FOLDER), Loss(Kept, fate, []);
    var cfg := run.cfg;
    hide Denotes; hide Structure; hide Apply; hide ManipulateWith; hide Preorder; hide RunStmtsWith; hide NodeStmts; hide Exec;
    TwoVisits(hash, rowids, FOLDER);
    TwoVisitsWith(EMPTY, run, l);
    var root, folder := FolderLost(cfg, fate);
    var m := ManipulateWith(EMPTY, cfg, map[], FOLDER_VISIT, l);
    var mid := Exec(EMPTY, m.stmts);
    VisitClean(mid, cfg, m.cache, CHILD_VISIT, NONE);
    ManipulateSplit(mid, cfg, m.cache, CHILD_VISIT);
    id := ChildMisplaced(mid, cfg);
    ExecNone(mid);
    Misplaced(Exec(mid, NodeStmts(mid, cfg, 0, CHILD)), id);
    FolderThere(Exec(mid, NodeStmts(mid, cfg, 0, CHILD)), root, folder, id, fate);
  }
  // ---------------------------------------------------------------- a directory that fails the access check

  const LOCKED: Node := FOLDER.(accessible := false)

  /** A file that passes the access check in a directory that fails it: every pass throws and changes nothing. */
  lemma LockedFolder(hash: Hasher, rowids: set<nat> -> nat, db: Db)
    requires FreshIds(rowids)
    ensures var run := PassOver(hash, rowids, LOCKED);
            ScanAll(db, run.cfg, map[], run.Reached()).threw && AfterRun(db, run) == db
  {
    var run, folder := PassOver(hash, rowids, LOCKED), Visit(["r"], 1, LOCKED);
    TwoVisits(hash, rowids, LOCKED);
    hide Preorder;
    assert ParentOf(folder, CHILD_VISIT) by {
      assert ["r"] + ["d"] == ["r", "d"];
    }
    assert folder in run.Reached() && CHILD_VISIT in run.Reached();
    assert Orphan(run.Reached(), CHILD_VISIT);
    ThrowsExactly(db, run);
    assert [folder, CHILD_VISIT][1..] == [CHILD_VISIT];
    assert Manipulate(db, run.cfg, map[], folder) == Scan([], map[], false);
    OneScanned(db, run.cfg, map[], CHILD_VISIT);
    assert Exec(db, []) == db && Manipulate(db, run.cfg, map[], CHILD_VISIT) == Scan([], map[], true);
  }
}
