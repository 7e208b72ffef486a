/**
 * The prepared statements of `reindex` as methods over two tables held in memory.
 *
 * Each method does what its SQL text says and is proved to be one `Stmt` of module Store, or,
 * when the statement fails, no change at all. A failure throws, except that the two INSERTs, and the
 * SELECT after the INSERT of a new entry, run with exceptions off and report it as one more result
 * code. The ghost trace lists what ran.
 */
module Database {
  import opened Common
  import opened Store
  import opened Pass

  /** What UNIQUE(parent_id, name) and SQLite's rowids guarantee. */
  ghost predicate Keyed(db: Db) {
    0 !in db.entries && UniqueKeys(db)
  }

  /** Only an insert can break the keys, and it is refused when it would. */
  lemma ApplyKeepsKeys(db: Db, s: Stmt)
    requires Keyed(db) && (s.Insert? ==> s.rowid != 0 && s.rowid !in db.entries)
    ensures Keyed(Apply(db, s))
  {
    var to := Apply(db, s);
    forall i: nat, j: nat | SameKey(to, i, j)
      ensures i == j
    {
      if s.Insert? && Find(db, s.cols.parent, s.cols.name).None? {
        assert !IsKey(db, i, s.cols.parent, s.cols.name) && !IsKey(db, j, s.cols.parent, s.cols.name);
      }
      assert i != j ==> SameKey(db, i, j);
    }
  }

  lemma ExecSnoc(origin: Db, trace: seq<Stmt>, s: Stmt)
    ensures Exec(origin, trace + [s]) == Apply(Exec(origin, trace), s)
  {
    ExecConcat(origin, trace, [s]);
    ExecFew(Exec(origin, trace), s, s, s);
  }

  /** What becomes of an attempt to run a statement: it runs, SQLite reports an error, or the process is gone. */
  datatype Outcome = Runs | Errors | Dies

  class Connection {
    var entries: map<nat, Row>
    var blocks: map<(nat, nat), Bytes>
    var attempts: nat
    const outcomes: nat -> Outcome
    const rowids: set<nat> -> nat
    ghost const origin: Db
    ghost var trace: seq<Stmt>

    /** A database as some history left it; `outcomes` says what becomes of each attempt to run a statement. */
    constructor (entries: map<nat, Row>, blocks: map<(nat, nat), Bytes>, rowids: set<nat> -> nat, outcomes: nat -> Outcome)
      requires Keyed(Db(entries, blocks)) && FreshIds(rowids)
      ensures Valid() && Value() == Db(entries, blocks) && trace == []
      ensures this.rowids == rowids && this.outcomes == outcomes
    {
      this.entries, this.blocks, this.rowids, this.outcomes := entries, blocks, rowids, outcomes;
      attempts := 0;
      origin, trace := Db(entries, blocks), [];
    }

    ghost function Value(): Db
      reads this`entries, this`blocks
    {
      Db(entries, blocks)
    }

    ghost predicate Valid()
      reads this
    {
      Keyed(Value()) && FreshIds(rowids) && Value() == Exec(origin, trace)
    }

    ghost predicate CanFail() {
      exists n: nat :: !outcomes(n).Runs?
    }

    /** Some attempt ends with an error, which an INSERT does not throw. */
    ghost predicate CanLose() {
      exists n: nat :: outcomes(n).Errors?
    }

    /** Statement `s` ran on the tables `before`, or, if stopped, did nothing. */
    ghost predicate Ran(before: Db, done: seq<Stmt>, s: Stmt, st: Status)
      reads this
    {
      if st.Done? then Value() == Apply(before, s) && trace == done + [s]
      else Value() == before && trace == done && CanFail()
    }

    /** The statements `ss` ran one after the other, or, if stopped, only the first of them did. */
    ghost predicate RanAll(before: Db, done: seq<Stmt>, ss: seq<Stmt>, st: Status)
      reads this
    {
      if st.Done? then Value() == Exec(before, ss) && trace == done + ss
      else done <= trace <= done + ss && CanFail()
    }

    lemma RanNone(before: Db, done: seq<Stmt>)
      requires Value() == before && trace == done
      ensures RanAll(before, done, [], Done)
    {
    }

    lemma RanOne(before: Db, done: seq<Stmt>, s: Stmt, st: Status)
      requires Ran(before, done, s, st)
      ensures RanAll(before, done, [s], st)
    {
      ExecFew(before, s, s, s);
    }

    lemma RanThen(before: Db, done: seq<Stmt>, a: seq<Stmt>, b: seq<Stmt>, st: Status)
      requires RanAll(Exec(before, a), done + a, b, st)
      ensures RanAll(before, done, a + b, st)
    {
      ExecConcat(before, a, b);
      assert done + a + b == done + (a + b);
    }

    lemma RanPart(before: Db, done: seq<Stmt>, a: seq<Stmt>, b: seq<Stmt>)
      requires RanAll(before, done, a, Stopped)
      ensures RanAll(before, done, a + b, Stopped)
    {
      assert done + (a + b) == done + a + b;
    }

    method Next() returns (outcome: Outcome)
      modifies this`attempts
      ensures outcome == outcomes(old(attempts)) && attempts == old(attempts) + 1
    {
      outcome := outcomes(attempts);
      attempts := attempts + 1;
    }

    /** With exceptions on an error throws. */
    method Attempt() returns (st: Status)
      modifies this`attempts
      ensures st.Done? <==> outcomes(old(attempts)).Runs?
      ensures attempts == old(attempts) + 1 && (st.Stopped? ==> CanFail())
    {
      var outcome := Next();
      st := if outcome.Runs? then Done else Stopped;
    }

    /** With exceptions off an error is one more result code. */
    method AttemptInsert() returns (st: Status, lost: bool)
      modifies this`attempts
      ensures st.Stopped? <==> outcomes(old(attempts)).Dies?
      ensures lost <==> outcomes(old(attempts)).Errors?
      ensures attempts == old(attempts) + 1 && (st.Stopped? ==> CanFail()) && (lost ==> CanLose())
    {
      var outcome := Next();
      st := if outcome.Dies? then Stopped else Done;
      lost := outcome.Errors?;
    }

    /** Nothing was written although the caller goes on. */
    ghost predicate Lost(before: Db, done: seq<Stmt>, st: Status)
      reads this
    {
      st.Done? && Value() == before && trace == done && CanLose()
    }

    /** The row with this key, zero if there is none, and its time, zero for NULL. */
    method Row(parent: nat, name: string) returns (id: nat, mtime: nat)
      requires Valid()
      ensures var f := Find(Value(), parent, name);
              && id == (if f.Some? then f.value else 0)
              && mtime == (if f.Some? && Value().entries[f.value].mtime.Some? then Value().entries[f.value].mtime.value else 0)
    {
      id, mtime := 0, 0;
      if row: nat :| row in entries && entries[row].parent == parent && entries[row].name == name {
        assert IsKey(Value(), row, parent, name);
        assert SameKey(Value(), row, Find(Value(), parent, name).value);
        id, mtime := row, if entries[row].mtime.Some? then entries[row].mtime.value else 0;
      } else {
        assert forall row :: !IsKey(Value(), row, parent, name);
      }
    }

    /** SELECT rowid, mtime: zero when there is no such row, and zero for a NULL time. */
    method Select(parent: nat, name: string) returns (st: Status, id: nat, mtime: nat)
      requires Valid()
      modifies this`attempts
      ensures Valid() && (st.Stopped? ==> CanFail())
      ensures st.Done? <==> outcomes(old(attempts)).Runs?
      ensures st.Done? ==>
                var f := Find(Value(), parent, name);
                && id == (if f.Some? then f.value else 0)
                && mtime == (if f.Some? && Value().entries[f.value].mtime.Some? then Value().entries[f.value].mtime.value else 0)
    {
      id, mtime := 0, 0;
      st := Attempt();
      if st.Done? {
        id, mtime := Row(parent, name);
      }
    }

    /** The same SELECT with exceptions off: an error is taken for a row, whose columns then read as zero. */
    method Reread(parent: nat, name: string) returns (st: Status, id: nat, ghost unseen: bool)
      requires Valid()
      modifies this`attempts
      ensures Valid() && (st.Stopped? ==> CanFail())
      ensures (st.Stopped? <==> outcomes(old(attempts)).Dies?) && (unseen <==> outcomes(old(attempts)).Errors?)
      ensures if unseen then CanLose() && id == 0
              else st.Done? ==> id == (if Find(Value(), parent, name).Some? then Find(Value(), parent, name).value else 0)
    {
      var outcome := Next();
      id, unseen := 0, outcome.Errors?;
      st := if outcome.Dies? then Stopped else Done;
      if outcome.Runs? {
        var unused;
        id, unused := Row(parent, name);
      }
    }

    /** INSERT INTO entries: the caller learns of a conflict, and of nothing else that kept the row out. */
    method Insert(c: Cols) returns (st: Status, conflict: bool, ghost lost: bool)
      requires Valid()
      modifies this
      ensures Valid()
      ensures if lost then Lost(old(Value()), old(trace), st) && !conflict
              else Ran(old(Value()), old(trace), Stmt.Insert(rowids(old(entries.Keys)), c), st)
      ensures (st.Stopped? <==> outcomes(old(attempts)).Dies?) && (lost <==> outcomes(old(attempts)).Errors?)
      ensures st.Done? && !lost ==> (conflict <==> Find(old(Value()), c.parent, c.name).Some?)
    {
      conflict := false;
      var error;
      st, error := AttemptInsert();
      lost := error;
      if st.Done? && !error {
        ghost var before, s := Value(), Stmt.Insert(rowids(entries.Keys), c);
        if row: nat :| row in entries && entries[row].parent == c.parent && entries[row].name == c.name {
          assert IsKey(before, row, c.parent, c.name);
          conflict := true;
        } else {
          assert forall row :: !IsKey(before, row, c.parent, c.name);
          var size, blockSize := if c.fileSize == 0 then None else Some(c.fileSize), if c.blockSize == 0 then None else Some(c.blockSize);
          entries := entries[rowids(entries.Keys) := Store.Row(false, c.parent, c.name, c.isDir, None, size, blockSize, None)];
        }
        ApplyKeepsKeys(before, s);
        ExecSnoc(origin, trace, s);
        trace := trace + [s];
      }
    }

    /** UPDATE entries WHERE parent_id and name match. */
    method Update(c: Cols) returns (st: Status)
      requires Valid()
      modifies this
      ensures Valid() && Ran(old(Value()), old(trace), Stmt.Update(c), st)
      ensures st.Done? <==> outcomes(old(attempts)).Runs?
    {
      st := Attempt();
      if st.Done? {
        ghost var before := Value();
        var size, blockSize := if c.fileSize == 0 then None else Some(c.fileSize), if c.blockSize == 0 then None else Some(c.blockSize);
        entries := map id | id in entries ::
          if entries[id].parent == c.parent && entries[id].name == c.name then
            entries[id].(alive := false, isDir := c.isDir, size := size, blockSize := blockSize, digest := None)
          else entries[id];
        UpdateIsOneRow(before, Value(), c);
        ApplyKeepsKeys(before, Stmt.Update(c));
        ExecSnoc(origin, trace, Stmt.Update(c));
        trace := trace + [Stmt.Update(c)];
      }
    }

    /** UPDATE entries SET is_alive = 0 WHERE rowid = id. */
    method Touch(id: nat) returns (st: Status)
      requires Valid()
      modifies this
      ensures Valid() && Ran(old(Value()), old(trace), Stmt.Touch(id), st)
      ensures st.Done? <==> outcomes(old(attempts)).Runs?
    {
      st := Attempt();
      if st.Done? {
        ghost var before := Value();
        if id in entries {
          entries := entries[id := entries[id].(alive := false)];
        }
        ApplyKeepsKeys(before, Stmt.Touch(id));
        ExecSnoc(origin, trace, Stmt.Touch(id));
        trace := trace + [Stmt.Touch(id)];
      }
    }

    /** UPDATE entries SET is_alive = 0, mtime, digest WHERE rowid = id. */
    method Finish(id: nat, mtime: nat, digest: Bytes) returns (st: Status)
      requires Valid()
      modifies this
      ensures Valid() && Ran(old(Value()), old(trace), Stmt.Finish(id, mtime, digest), st)
      ensures st.Done? <==> outcomes(old(attempts)).Runs?
    {
      st := Attempt();
      if st.Done? {
        ghost var before, s := Value(), Stmt.Finish(id, mtime, digest);
        if id in entries {
          entries := entries[id := entries[id].(alive := false, mtime := Some(mtime), digest := Some(digest))];
        }
        ApplyKeepsKeys(before, s);
        ExecSnoc(origin, trace, s);
        trace := trace + [s];
      }
    }

    /** INSERT INTO blocks_digests, in the same way. */
    method BlockInsert(id: nat, no: nat, digest: Bytes) returns (st: Status, conflict: bool, ghost lost: bool)
      requires Valid()
      modifies this
      ensures Valid()
      ensures if lost then Lost(old(Value()), old(trace), st) && !conflict
              else Ran(old(Value()), old(trace), Stmt.BlockInsert(id, no, digest), st)
      ensures (st.Stopped? <==> outcomes(old(attempts)).Dies?) && (lost <==> outcomes(old(attempts)).Errors?)
      ensures st.Done? && !lost ==> (conflict <==> (id, no) in old(blocks))
    {
      conflict := false;
      var error;
      st, error := AttemptInsert();
      lost := error;
      if st.Done? && !error {
        ghost var before, s := Value(), Stmt.BlockInsert(id, no, digest);
        conflict := (id, no) in blocks;
        if !conflict {
          blocks := blocks[(id, no) := digest];
        }
        ApplyKeepsKeys(before, s);
        ExecSnoc(origin, trace, s);
        trace := trace + [s];
      }
    }

    /** UPDATE blocks_digests WHERE entry_id and block_no match. */
    method BlockUpdate(id: nat, no: nat, digest: Bytes) returns (st: Status)
      requires Valid()
      modifies this
      ensures Valid() && Ran(old(Value()), old(trace), Stmt.BlockUpdate(id, no, digest), st)
      ensures st.Done? <==> outcomes(old(attempts)).Runs?
    {
      st := Attempt();
      if st.Done? {
        ghost var before, s := Value(), Stmt.BlockUpdate(id, no, digest);
        if (id, no) in blocks {
          blocks := blocks[(id, no) := digest];
        }
        ApplyKeepsKeys(before, s);
        ExecSnoc(origin, trace, s);
        trace := trace + [s];
      }
    }

    /** DELETE FROM blocks_digests WHERE entry_id = id AND block_no > no. */
    method BlockDeleteAbove(id: nat, no: nat) returns (st: Status)
      requires Valid()
      modifies this
      ensures Valid() && Ran(old(Value()), old(trace), Stmt.BlockDeleteAbove(id, no), st)
      ensures st.Done? <==> outcomes(old(attempts)).Runs?
    {
      st := Attempt();
      if st.Done? {
        ghost var before, s := Value(), Stmt.BlockDeleteAbove(id, no);
        blocks := map k | k in blocks && !(k.0 == id && k.1 > no) :: blocks[k];
        ApplyKeepsKeys(before, s);
        ExecSnoc(origin, trace, s);
        trace := trace + [s];
      }
    }

    /** DELETE FROM blocks_digests WHERE entry_id IN (SELECT rowid FROM entries WHERE is_alive <> 0). */
    method DeleteBlocks() returns (outcome: Outcome)
      modifies this`blocks, this`attempts
      ensures outcome == outcomes(old(attempts)) && attempts == old(attempts) + 1
      ensures Value() == AfterScript(old(Value()), if outcome.Runs? then 1 else 0)
    {
      outcome := Next();
      if outcome.Runs? {
        blocks := map k | k in blocks && !(k.0 in entries && entries[k.0].alive) :: blocks[k];
      }
    }

    /** DELETE FROM entries WHERE is_alive <> 0. */
    method DeleteRows(ghost before: Db) returns (outcome: Outcome)
      requires Value() == AfterScript(before, 1)
      modifies this`entries, this`attempts
      ensures outcome == outcomes(old(attempts)) && attempts == old(attempts) + 1
      ensures Value() == AfterScript(before, if outcome.Runs? then 2 else 1)
    {
      outcome := Next();
      if outcome.Runs? {
        entries := map id | id in entries && !entries[id].alive :: entries[id];
      }
    }

    /** UPDATE entries SET is_alive = 1. */
    method Revive(ghost before: Db) returns (outcome: Outcome)
      requires Value() == AfterScript(before, 2)
      modifies this`entries, this`attempts
      ensures outcome == outcomes(old(attempts)) && attempts == old(attempts) + 1
      ensures Value() == AfterScript(before, if outcome.Runs? then 3 else 2)
    {
      outcome := Next();
      if outcome.Runs? {
        entries := map id | id in entries :: entries[id].(alive := true);
        assert Value().entries == Apply(before, Sweep).entries;
      }
    }

    /** How many statements of the script run, the first being attempt `at`. */
    function Running(at: nat): nat {
      if !outcomes(at).Runs? then 0 else if !outcomes(at + 1).Runs? then 1 else if !outcomes(at + 2).Runs? then 2 else 3
    }

    /** The script of `cleanup_entries`, up to its first statement that fails. */
    method Script() returns (outcome: Outcome, n: nat)
      modifies this`entries, this`blocks, this`attempts
      ensures n == Running(old(attempts)) && Value() == AfterScript(old(Value()), n)
      ensures attempts == old(attempts) + (if n == 3 then 3 else n + 1) && outcome == outcomes(attempts - 1)
    {
      hide AfterScript;
      ghost var before := Value();
      outcome := DeleteBlocks();
      n := if outcome.Runs? then 1 else 0;
      if n == 1 {
        outcome := DeleteRows(before);
        n := if outcome.Runs? then 2 else 1;
      }
      if n == 2 {
        outcome := Revive(before);
        n := if outcome.Runs? then 3 else 2;
      }
    }

    /**
     * What the transaction of `cleanup_entries`, begun with attempt `at`, leaves: BEGIN, three
     * statements, COMMIT. A statement that throws is followed by a COMMIT from the destructor.
     */
    function Committed(at: nat): Option<Stmt> {
      var n := Running(at + 1);
      if outcomes(at).Runs? && 0 < n && (n == 3 || outcomes(at + 1 + n).Errors?) && outcomes(at + 1 + n + (if n == 3 then 0 else 1)).Runs? then
        Some(ScriptPart(n))
      else None
    }

    /** `cleanup_entries`: all of it, or the part before the statement that threw, or nothing if the COMMIT fails or the process dies. */
    method CleanupEntries() returns (st: Status, ghost part: Option<Stmt>)
      requires Valid()
      modifies this
      ensures Valid() && part == Committed(old(attempts))
      ensures st.Done? <==> part == Some(Sweep)
      ensures st.Stopped? ==> CanFail()
      ensures if part.None? then Value() == old(Value()) && trace == old(trace)
              else Value() == Apply(old(Value()), part.value) && trace == old(trace) + [part.value]
    {
      hide Apply; hide Exec; hide UniqueKeys;
      part := None;
      st := Attempt();
      if st.Stopped? {
        return;
      }
      var savedEntries, savedBlocks := entries, blocks;
      var outcome, n := Script();
      var committed := !outcome.Dies?;
      if committed {
        var commit := Next();
        committed := commit.Runs?;
      }
      st := if n == 3 && committed then Done else Stopped;
      if !committed {
        entries, blocks := savedEntries, savedBlocks;
      } else if n > 0 {
        ghost var s := ScriptPart(n);
        part := Some(s);
        ApplyKeepsKeys(old(Value()), s);
        ExecSnoc(origin, trace, s);
        trace := trace + [s];
      }
    }
  }

  /** The first `n` statements of the script as one step. */
  function ScriptPart(n: nat): Stmt
    requires n > 0
  {
    if n == 1 then SweepBlocks else if n == 2 then SweepRows else Sweep
  }

  ghost function AfterScript(db: Db, n: nat): Db {
    if n == 0 then db else Apply(db, ScriptPart(n))
  }

  /** A key that is unique makes the update of all matching rows the update of one. */
  lemma UpdateIsOneRow(from: Db, to: Db, c: Cols)
    requires UniqueKeys(from) && to.blocks == from.blocks && to.entries.Keys == from.entries.Keys
    requires forall id :: id in from.entries ==>
               to.entries[id] ==
                 if from.entries[id].parent == c.parent && from.entries[id].name == c.name then
                   from.entries[id].(alive := false, isDir := c.isDir, digest := None,
                                     size := if c.fileSize == 0 then None else Some(c.fileSize),
                                     blockSize := if c.blockSize == 0 then None else Some(c.blockSize))
                 else from.entries[id]
    ensures to == Apply(from, Stmt.Update(c))
  {
    var f := Find(from, c.parent, c.name);
    forall id | id in from.entries
      ensures to.entries[id] == Apply(from, Stmt.Update(c)).entries[id]
    {
      if IsKey(from, id, c.parent, c.name) {
        assert SameKey(from, id, f.value);
      }
    }
    assert to.entries == Apply(from, Stmt.Update(c)).entries;
  }
}
