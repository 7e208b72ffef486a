/** The digest of a file as `update_blocks` computes it, and what it is the digest of. */
module FileDigest {
  import opened Common
  import opened Tree
  import opened Pass
  import opened Store
  import opened Cdc512

  function BlockDigest(block: Bytes): Bytes {
    Digest(block)
  }

  /** One context is fed the padded blocks in order. */
  function FileDigestOf(blocks: seq<Bytes>): Bytes {
    DigestOf(Finished(Feed(START, blocks)))
  }

  const CDC: Hasher := Hasher(BlockDigest, FileDigestOf)

  /** Every read but the last filled the buffer. */
  predicate OnlyLastShort(chunks: seq<Bytes>) {
    ValidChunks(chunks) && forall i :: 0 <= i < |chunks| - 1 ==> |chunks[i]| == BLOCK_SIZE
  }

  /** The number of zeros that complete the last block. */
  function Lacking(size: nat): (n: nat)
    ensures n < BLOCK_SIZE && (size + n) % BLOCK_SIZE == 0
  {
    (BLOCK_SIZE - size % BLOCK_SIZE) % BLOCK_SIZE
  }

  /** ceil(size / 4096) */
  function BlockCount(size: nat): nat {
    (size + BLOCK_SIZE - 1) / BLOCK_SIZE
  }

  /** The part of the file that block `i`, counted from zero, stands for. */
  function Slice(content: Bytes, i: nat): Bytes
    requires i < BlockCount(|content|)
  {
    if BLOCK_SIZE * (i + 1) <= |content| then content[BLOCK_SIZE * i..BLOCK_SIZE * (i + 1)]
    else content[BLOCK_SIZE * i..]
  }

  /** Byte `j` of the padded block `i`: a byte of the file, or zero behind its end. */
  lemma BlockByte(content: Bytes, i: nat, j: nat)
    requires i < BlockCount(|content|) && j < 4096
    ensures |Pad(Slice(content, i))| == 4096
    ensures Pad(Slice(content, i))[j] == if 4096 * i + j < |content| then content[4096 * i + j] else 0
  {
    assert 4096 * i < |content|;
  }

  /** The blocks cover the file and the zeros behind it exactly. */
  lemma BlocksCover(size: nat)
    ensures 4096 * BlockCount(size) == size + Lacking(size) && Lacking(size) < 4096
  {
  }

  /** Reads that fill the buffer until the last cut the file into its 4096-byte slices. */
  lemma {:induction false} ChunksAreSlices(chunks: seq<Bytes>, i: nat)
    requires OnlyLastShort(chunks) && i < |chunks|
    ensures |chunks| == BlockCount(|Concat(chunks)|)
    ensures chunks[i] == Slice(Concat(chunks), i)
    decreases |chunks|
  {
    var content, rest := Concat(chunks), Concat(chunks[1..]);
    assert content == chunks[0] + rest;
    if |chunks| == 1 {
      assert rest == [];
    } else {
      ChunksAreSlices(chunks[1..], if i == 0 then 0 else i - 1);
      FirstSlice(chunks[0], rest, i);
    }
  }

  lemma FirstSlice(first: Bytes, rest: Bytes, i: nat)
    requires |first| == BLOCK_SIZE && rest != [] && i < BlockCount(|rest|) + 1
    ensures BlockCount(|first + rest|) == BlockCount(|rest|) + 1
    ensures Slice(first + rest, i) == if i == 0 then first else Slice(rest, i - 1)
  {
    assert |first + rest| == BLOCK_SIZE + |rest|;
  }

  /** The padded blocks, put together, are the file padded to a whole number of blocks. */
  lemma {:induction false} BlocksArePaddedFile(chunks: seq<Bytes>)
    requires OnlyLastShort(chunks)
    ensures Concat(PadAll(chunks)) == Concat(chunks) + Zeros(Lacking(|Concat(chunks)|))
    decreases |chunks|
  {
    hide Zeros; hide Lacking;
    if chunks == [] {
      NothingLacking();
    } else if |chunks| == 1 {
      hide PadAll; hide Concat;
      LastBlock(chunks[0]);
      ConcatOne(chunks);
      ConcatOne(PadAll(chunks));
    } else {
      BlocksArePaddedFile(chunks[1..]);
      assert PadAll(chunks)[1..] == PadAll(chunks[1..]);
      LackingAfterFull(|Concat(chunks[1..])|);
      ConcatFirst(chunks);
      ConcatFirst(PadAll(chunks));
      BytesAssoc(chunks[0], Concat(chunks[1..]), Zeros(Lacking(|Concat(chunks[1..])|)));
    }
  }

  lemma NothingLacking()
    ensures Zeros(Lacking(0)) == []
  {
  }

  lemma ConcatFirst(pieces: seq<Bytes>)
    requires pieces != []
    ensures Concat(pieces) == pieces[0] + Concat(pieces[1..])
  {
  }

  lemma BytesAssoc(a: Bytes, b: Bytes, c: Bytes)
    ensures a + (b + c) == a + b + c
  {
  }

  lemma ConcatOne(pieces: seq<Bytes>)
    requires |pieces| == 1
    ensures Concat(pieces) == pieces[0]
  {
    assert Concat(pieces) == pieces[0] + Concat([]);
  }

  lemma LastBlock(chunk: Bytes)
    requires 0 < |chunk| <= BLOCK_SIZE
    ensures Pad(chunk) == chunk + Zeros(Lacking(|chunk|))
  {
  }

  lemma LackingAfterFull(size: nat)
    ensures Lacking(BLOCK_SIZE + size) == Lacking(size)
  {
  }

  lemma BlocksAreWholeChunks(chunks: seq<Bytes>)
    requires OnlyLastShort(chunks)
    ensures WholeChunks(PadAll(chunks))
  {
  }

  /**
   * As long as only the last read is short, the file digest is the one-shot digest of the file
   * padded with zeros to a multiple of 4096, so it depends on the content alone.
   */
  lemma FileDigestIsPadded(chunks: seq<Bytes>)
    requires OnlyLastShort(chunks)
    ensures FileDigestOf(PadAll(chunks)) == Digest(Concat(chunks) + Zeros(Lacking(|Concat(chunks)|)))
  {
    hide DigestOf; hide Finished; hide Updated; hide Feed; hide PadAll; hide OnlyLastShort;
    BlocksAreWholeChunks(chunks);
    BlocksArePaddedFile(chunks);
    SplitIndependent(START, PadAll(chunks));
  }

  /** The block rows of `id` are numbered 1..ceil(size / 4096), each the digest of its zero-padded slice. */
  ghost predicate BlockRowsOf(db: Db, id: nat, content: Bytes) {
    && (forall no: nat :: (id, no) in db.blocks <==> 1 <= no <= BlockCount(|content|))
    && (forall no: nat :: 1 <= no <= BlockCount(|content|) && (id, no) in db.blocks ==>
          db.blocks[(id, no)] == Digest(Pad(Slice(content, no - 1))))
  }

  lemma BlockRowsAreSlices(db: Db, id: nat, chunks: seq<Bytes>)
    requires OnlyLastShort(chunks) && chunks != [] && BlocksAre(CDC, db, id, chunks, |chunks|)
    ensures BlockRowsOf(db, id, Concat(chunks))
  {
    hide Digest; hide Slice; hide BlockCount; hide Pad; hide Concat; hide OnlyLastShort;
    ChunksAreSlices(chunks, 0);
    forall no: nat | 1 <= no <= |chunks| && (id, no) in db.blocks
      ensures db.blocks[(id, no)] == Digest(Pad(Slice(Concat(chunks), no - 1)))
    {
      ChunksAreSlices(chunks, no - 1);
      assert CDC.block(Pad(chunks[no - 1])) == Digest(Pad(chunks[no - 1]));
    }
  }

  lemma CdcFile(blocks: seq<Bytes>)
    ensures CDC.file(blocks) == FileDigestOf(blocks)
  {
    hide FileDigestOf;
  }

  /** What a visit leaves in the tables when the file is nonempty and read to its end. */
  lemma FileRecorded(db: Db, id: nat, f: Node)
    requires f.File? && f.io.ReadsToEnd? && OnlyLastShort(f.ver.chunks) && f.ver.chunks != []
    requires id in db.entries && !db.entries[id].alive && BlocksOwned(db)
    ensures var to, content := Exec(db, FileStmts(db, CDC, id, f)), Concat(f.ver.chunks);
            && BlockRowsOf(to, id, content)
            && (forall k: (nat, nat) :: k.0 != id ==> (k in to.blocks <==> k in db.blocks) && (k in db.blocks ==> to.blocks[k] == db.blocks[k]))
            && to.entries == db.entries[id := db.entries[id].(mtime := Some(f.ver.mtime),
                                                             digest := Some(Digest(content + Zeros(Lacking(|content|)))))]
  {
    hide Digest; hide FileDigestOf; hide FileStmts; hide BlockRowsOf; hide BlocksAre; hide PadAll; hide Concat; hide OnlyLastShort; hide CDC;
    FileEffect(db, CDC, id, f);
    FileDigestIsPadded(f.ver.chunks);
    CdcFile(PadAll(f.ver.chunks));
    BlockRowsAreSlices(Exec(db, FileStmts(db, CDC, id, f)), id, f.ver.chunks);
  }

  /**
   * The blocks are deleted only after a read that delivers something, so the rows describe the
   * file after a visit exactly when the file is nonempty or had no block rows before.
   */
  lemma BlockRowsExactly(db: Db, id: nat, f: Node)
    requires f.File? && f.io.ReadsToEnd? && OnlyLastShort(f.ver.chunks)
    requires id in db.entries && !db.entries[id].alive && BlocksOwned(db)
    ensures BlockRowsOf(Exec(db, FileStmts(db, CDC, id, f)), id, Concat(f.ver.chunks)) <==>
              f.ver.chunks != [] || forall no: nat :: (id, no) !in db.blocks
  {
    hide Digest; hide FileStmts; hide CDC; hide OnlyLastShort; hide BlocksAre;
    var to := Exec(db, FileStmts(db, CDC, id, f));
    if f.ver.chunks != [] {
      FileRecorded(db, id, f);
    } else {
      FileEffect(db, CDC, id, f);
      assert forall no: nat :: ((id, no).0 == id) && ((id, no) in to.blocks <==> (id, no) in db.blocks);
    }
  }

  /** Block digests and file digest depend on the content of the file alone, not on how it was delivered. */
  lemma DeliveryIsIrrelevant(x: seq<Bytes>, y: seq<Bytes>)
    requires OnlyLastShort(x) && OnlyLastShort(y) && Concat(x) == Concat(y)
    ensures x == y
  {
    hide Slice; hide BlockCount; hide Concat;
    if x != [] {
      ChunksAreSlices(x, 0);
    }
    if y != [] {
      ChunksAreSlices(y, 0);
    }
    forall i | 0 <= i < |x| && |x| == |y|
      ensures x[i] == y[i]
    {
      ChunksAreSlices(x, i);
      ChunksAreSlices(y, i);
    }
    NothingDelivered(x);
    NothingDelivered(y);
  }

  lemma NothingDelivered(x: seq<Bytes>)
    requires OnlyLastShort(x)
    ensures Concat(x) == [] <==> x == []
  {
  }
}
