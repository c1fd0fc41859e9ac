/**
 * `StorageManager.fileToChunks`: a file of `n` bytes becomes
 * `n / 64000 + 1` zero-initialised rows of exactly 64000 bytes, filled in
 * order, each read taking `min(remaining, 64000)` bytes. The last row is
 * zero-padded, and a file whose length is a multiple of 64000 gets one
 * extra all-zero row.
 */
module Chunking {
  import opened Common

  const ChunkSize: nat := 64000

  /** Byte `i` of the file, or the zero a fresh Java array holds past the end of the file. */
  function PaddedByte(content: seq<Byte>, i: int): Byte {
    if 0 <= i < |content| then content[i] else 0
  }

  /** The chunks `fileToChunks` returns, as values: byte `i` of the file is byte `i % 64000` of chunk `i / 64000`. */
  function Chunks(content: seq<Byte>): (chunks: seq<seq<Byte>>)
    ensures |chunks| == |content| / ChunkSize + 1
    ensures forall r :: 0 <= r < |chunks| ==> |chunks[r]| == ChunkSize
    ensures forall i :: 0 <= i < |content| ==> chunks[i / ChunkSize][i % ChunkSize] == content[i]
  {
    var chunks := seq(|content| / ChunkSize + 1, r => seq(ChunkSize, j => PaddedByte(content, r * ChunkSize + j)));
    ChunkPositions(content, chunks);
    chunks
  }

  /** Rows of padded file bytes hold byte `i` of the file at row `i / 64000`, column `i % 64000`. */
  lemma ChunkPositions(content: seq<Byte>, chunks: seq<seq<Byte>>)
    requires |chunks| == |content| / ChunkSize + 1
    requires forall r :: 0 <= r < |chunks| ==> |chunks[r]| == ChunkSize
    requires forall r, j :: 0 <= r < |chunks| && 0 <= j < ChunkSize ==> chunks[r][j] == PaddedByte(content, r * ChunkSize + j)
    ensures forall i :: 0 <= i < |content| ==> chunks[i / ChunkSize][i % ChunkSize] == content[i]
  {
    forall i | 0 <= i < |content|
      ensures chunks[i / ChunkSize][i % ChunkSize] == content[i]
    {
      var r, j := i / ChunkSize, i % ChunkSize;
      DivMonotone(i, |content|);
      assert r * ChunkSize + j == i;
      assert chunks[r][j] == PaddedByte(content, r * ChunkSize + j);
    }
  }

  /** Division by the chunk size keeps the order of positions. */
  lemma DivMonotone(i: nat, n: nat)
    requires i <= n
    ensures i / ChunkSize <= n / ChunkSize
  {
  }

  /** The chunks laid end to end. */
  function Concat(chunks: seq<seq<Byte>>): seq<Byte> {
    if |chunks| == 0 then [] else chunks[0] + Concat(chunks[1..])
  }

  /**
   * `new byte[length / CHUNK_SIZE + 1][CHUNK_SIZE]` followed by one `read`
   * per row, each `read` filling `min(remaining, CHUNK_SIZE)` bytes.
   */
  method FileToChunks(content: seq<Byte>) returns (chunks: array2<Byte>)
    ensures chunks.Length0 == |content| / ChunkSize + 1
    ensures chunks.Length1 == ChunkSize
    ensures forall r, j :: 0 <= r < chunks.Length0 && 0 <= j < chunks.Length1 ==>
              chunks[r, j] == Chunks(content)[r][j]
  {
    var n := |content| / ChunkSize + 1;
    chunks := new Byte[n, ChunkSize]((_, _) => 0);
    for r := 0 to n
      invariant forall r', j :: 0 <= r' < n && 0 <= j < ChunkSize ==>
                  chunks[r', j] == if r' < r then PaddedByte(content, r' * ChunkSize + j) else 0
    {
      var pos := r * ChunkSize;
      var count := if |content| - pos < ChunkSize then |content| - pos else ChunkSize;
      for j := 0 to count
        invariant forall r', j' :: 0 <= r' < n && 0 <= j' < ChunkSize ==>
                    chunks[r', j'] == if r' < r || (r' == r && j' < j) then PaddedByte(content, r' * ChunkSize + j') else 0
      {
        chunks[r, j] := content[pos + j];
      }
    }
  }

  /** Byte `r * ChunkSize + j` of the concatenation is byte `j` of chunk `r`. */
  lemma {:induction false} ConcatAt(chunks: seq<seq<Byte>>, r: nat, j: nat)
    requires forall k :: 0 <= k < |chunks| ==> |chunks[k]| == ChunkSize
    requires r < |chunks| && j < ChunkSize
    ensures |Concat(chunks)| == |chunks| * ChunkSize
    ensures Concat(chunks)[r * ChunkSize + j] == chunks[r][j]
  {
    ConcatLength(chunks);
    if r > 0 {
      ConcatAt(chunks[1..], r - 1, j);
      assert (r - 1) * ChunkSize + j == r * ChunkSize + j - ChunkSize;
    }
  }

  lemma {:induction false} ConcatLength(chunks: seq<seq<Byte>>)
    requires forall k :: 0 <= k < |chunks| ==> |chunks[k]| == ChunkSize
    ensures |Concat(chunks)| == |chunks| * ChunkSize
  {
    if |chunks| > 0 {
      ConcatLength(chunks[1..]);
    }
  }

  /** The count is `length / 64000 + 1` and every chunk is exactly 64000 bytes long, so an empty file yields one chunk. */
  lemma ChunksShape(content: seq<Byte>)
    ensures |Chunks(content)| == |content| / ChunkSize + 1
    ensures forall r :: 0 <= r < |Chunks(content)| ==> |Chunks(content)[r]| == ChunkSize
    ensures |content| == 0 ==> |Chunks(content)| == 1
    ensures |content| % ChunkSize == 0 ==> |Chunks(content)| * ChunkSize == |content| + ChunkSize
  {
  }

  /** Byte `i` of the concatenated chunks is byte `i` of the file, or zero past its end. */
  lemma ConcatChunksAt(content: seq<Byte>, i: nat)
    requires i < |Concat(Chunks(content))|
    ensures Concat(Chunks(content))[i] == PaddedByte(content, i)
  {
    var cs := Chunks(content);
    ConcatLength(cs);
    var r, j := i / ChunkSize, i % ChunkSize;
    assert i == r * ChunkSize + j;
    ConcatAt(cs, r, j);
  }

  /** Concatenating the chunks in order and keeping the first `length` bytes gives the file back. */
  lemma Reassemble(content: seq<Byte>)
    ensures |content| <= |Concat(Chunks(content))|
    ensures Concat(Chunks(content))[..|content|] == content
  {
    var all := Concat(Chunks(content));
    ConcatLength(Chunks(content));
    forall i | 0 <= i < |content|
      ensures all[i] == content[i]
    {
      ConcatChunksAt(content, i);
    }
  }

  /** Every byte past the end of the file, all of them in the last chunk, is zero. */
  lemma PaddingIsZero(content: seq<Byte>)
    ensures forall i :: |content| <= i < |Concat(Chunks(content))| ==> Concat(Chunks(content))[i] == 0
  {
    ConcatLength(Chunks(content));
    forall i | |content| <= i < |Concat(Chunks(content))|
      ensures Concat(Chunks(content))[i] == 0
    {
      ConcatChunksAt(content, i);
    }
  }

  /** The chunks hold between 1 and 64000 bytes more than the file. */
  lemma PaddingBounds(content: seq<Byte>)
    ensures 1 <= |Concat(Chunks(content))| - |content| <= ChunkSize
  {
    ConcatLength(Chunks(content));
  }

  /** When the length is a multiple of 64000 the last chunk is all zeros. */
  lemma ExactMultipleGetsEmptyChunk(content: seq<Byte>)
    requires |content| % ChunkSize == 0
    ensures Chunks(content)[|content| / ChunkSize] == seq(ChunkSize, _ => 0 as Byte)
  {
    var last := |content| / ChunkSize;
    assert last * ChunkSize == |content|;
    forall j | 0 <= j < ChunkSize
      ensures Chunks(content)[last][j] == 0
    {
      assert Chunks(content)[last][j] == PaddedByte(content, last * ChunkSize + j);
    }
  }
}
