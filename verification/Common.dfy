/** Types shared by the modules of the model. */
module Common {

  datatype Option<+T> = None | Some(value: T)

  /** How a statement, or the code around it, ends: normally or by stopping the pass. */
  datatype Status = Done | Stopped

  type Bytes = seq<bv8>

  /** The number of bytes hashed as one block (`block_size` in `reindex`). */
  const BLOCK_SIZE: nat := 4096

  function Zeros(n: nat): (z: Bytes)
    ensures |z| == n
  {
    seq(n, _ => 0)
  }

  /** The block buffer after a read that delivered `chunk`: the rest of the buffer is cleared. */
  function Pad(chunk: Bytes): (block: Bytes)
    ensures |chunk| <= BLOCK_SIZE ==> |block| == BLOCK_SIZE && chunk <= block
  {
    if |chunk| < BLOCK_SIZE then chunk + Zeros(BLOCK_SIZE - |chunk|) else chunk
  }

  function PadAll(chunks: seq<Bytes>): (blocks: seq<Bytes>)
    ensures |blocks| == |chunks|
    ensures forall i :: 0 <= i < |chunks| ==> blocks[i] == Pad(chunks[i])
  {
    seq(|chunks|, i requires 0 <= i < |chunks| => Pad(chunks[i]))
  }
}
