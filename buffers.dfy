/** Node's `Buffer` as the handler uses it: the chunks of one file stream arrive
    in order and `Buffer.concat` joins them into one contiguous byte sequence. */
module Buffers {

  newtype Byte = x: int | 0 <= x < 256

  /** One `data` event's payload. */
  type Chunk = seq<Byte>

  /** The sum of the chunk lengths. */
  function TotalLength(chunks: seq<Chunk>): nat
    decreases |chunks|
  {
    if chunks == [] then 0 else |chunks[0]| + TotalLength(chunks[1..])
  }

  /** `Buffer.concat(chunks)`: the chunks joined in list order. Its length is the sum
      of the chunk lengths. */
  function Concat(chunks: seq<Chunk>): (buf: seq<Byte>)
    ensures |buf| == TotalLength(chunks)
    decreases |chunks|
  {
    if chunks == [] then [] else chunks[0] + Concat(chunks[1..])
  }

  /** Byte `j` of chunk `i` sits in the joined buffer right after all bytes of the
      chunks before it: no chunk is dropped, duplicated or reordered. */
  lemma {:induction false} ConcatAt(chunks: seq<Chunk>, i: nat, j: nat)
    requires i < |chunks| && j < |chunks[i]|
    ensures TotalLength(chunks[..i]) + j < |Concat(chunks)|
    ensures Concat(chunks)[TotalLength(chunks[..i]) + j] == chunks[i][j]
    decreases i
  {
    if i == 0 {
      assert chunks[..0] == [];
    } else {
      ConcatAt(chunks[1..], i - 1, j);
      assert chunks[..i][1..] == chunks[1..][..i - 1];
      assert chunks[..i][0] == chunks[0];
    }
  }

  /** Appending a chunk appends its bytes: the effect of one more `chunks.push`. */
  lemma {:induction false} ConcatAppend(chunks: seq<Chunk>, c: Chunk)
    ensures Concat(chunks + [c]) == Concat(chunks) + c
    ensures TotalLength(chunks + [c]) == TotalLength(chunks) + |c|
    decreases |chunks|
  {
    if chunks == [] {
      assert [c][1..] == [];
    } else {
      assert (chunks + [c])[1..] == chunks[1..] + [c];
      ConcatAppend(chunks[1..], c);
    }
  }
}
