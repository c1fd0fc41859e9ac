/**
 * `ChunkInfo`: a stored chunk as two files, the chunk file holding the
 * body and the info file holding the "necessary replication" counter
 * (replications still missing; zero or less means the desired degree is
 * met). The files are modelled as fields: their contents, or None once
 * deleted.
 */
module ChunkRecord {
  import opened Common
  import opened Numbers

  /** `./peer<id>/backup/<fileId>/chk<chunkNo>`. */
  function ChunkPath(peerId: string, fileId: string, chunkNo: int): string {
    "./peer" + peerId + "/backup/" + fileId + "/chk" + DecimalString(chunkNo)
  }

  /** `./peer<id>/info/<fileId>/chk<chunkNo>`. */
  function InfoPath(peerId: string, fileId: string, chunkNo: int): string {
    "./peer" + peerId + "/info/" + fileId + "/chk" + DecimalString(chunkNo)
  }

  /**
   * Both paths end with the chunk number, which `Integer.parseInt` reads
   * back; NumberFormatException for a value outside the `int` range.
   */
  lemma PathsEndWithChunkNo(peerId: string, fileId: string, chunkNo: int)
    ensures var c, i, d := ChunkPath(peerId, fileId, chunkNo), InfoPath(peerId, fileId, chunkNo), DecimalString(chunkNo);
      && |d| < |c| && |d| < |i|
      && c[|c| - |d|..] == d && i[|i| - |d|..] == d
      && ParseInt(d) == (if IsInt32(chunkNo) then Some(chunkNo) else None)
  {
    ParseDecimalTotal(chunkNo);
  }

  /** On one peer, a chunk's body and its counter are kept in different files. */
  lemma ChunkAndInfoPathsDiffer(peerId: string, fileId: string, chunkNo: int)
    ensures ChunkPath(peerId, fileId, chunkNo) != InfoPath(peerId, fileId, chunkNo)
  {
    var at := |"./peer" + peerId| + 1;
    assert ChunkPath(peerId, fileId, chunkNo)[at] == 'b';
    assert InfoPath(peerId, fileId, chunkNo)[at] == 'i';
  }

  /** Equal concatenations with equally long first parts have equal parts. */
  lemma {:induction false} AppendCancel(a: string, b: string, c: string, d: string)
    requires a + b == c + d && |a| == |c|
    ensures a == c && b == d
  {
    assert a == (a + b)[..|a|] && c == (c + d)[..|c|];
    assert b == (a + b)[|a|..] && d == (c + d)[|c|..];
  }

  /** On one peer, chunks of same-length file ids are kept in different files. */
  lemma ChunkPathInjective(peerId: string, f1: string, n1: int, f2: string, n2: int)
    requires |f1| == |f2| && IsInt32(n1) && IsInt32(n2)
    ensures ChunkPath(peerId, f1, n1) == ChunkPath(peerId, f2, n2) <==> f1 == f2 && n1 == n2
  {
    var prefix := "./peer" + peerId + "/backup/";
    if ChunkPath(peerId, f1, n1) == ChunkPath(peerId, f2, n2) {
      AppendCancel(prefix + f1 + "/chk", DecimalString(n1), prefix + f2 + "/chk", DecimalString(n2));
      AppendCancel(prefix + f1, "/chk", prefix + f2, "/chk");
      AppendCancel(prefix, f1, prefix, f2);
      DecimalStringInjective(n1, n2);
    }
  }

  /** `necessaryReplication - 1` in Java `int` arithmetic, wrapping at the bottom of the range. */
  function Decrement(n: int): (r: int)
    requires IsInt32(n)
    ensures IsInt32(r)
    ensures n > Int32Min ==> r == n - 1
    ensures n == Int32Min ==> r == Int32Max
  {
    if n == Int32Min then Int32Max else n - 1
  }

  class ChunkInfo {
    const chunkPath: string
    const infoPath: string
    /** Contents of the chunk file; None once it is deleted. */
    var chunkFile: Option<seq<Byte>>
    /** The counter the info file holds; None once it is deleted. */
    var infoFile: Option<int>

    /** The info file holds a Java `int`. */
    ghost predicate Valid()
      reads this
    {
      infoFile.Some? ==> IsInt32(infoFile.value)
    }

    /** The desired degree is met once the counter has reached zero or less. */
    predicate Fulfilled()
      reads this
    {
      infoFile.Some? && infoFile.value <= 0
    }

    /** Writes the body to the chunk file and the desired degree, as the counter, to the info file. */
    constructor (peerId: string, fileId: string, chunkNo: int, replicationDegree: int, body: seq<Byte>)
      requires IsInt32(replicationDegree)
      ensures Valid()
      ensures chunkPath == ChunkPath(peerId, fileId, chunkNo)
      ensures infoPath == InfoPath(peerId, fileId, chunkNo)
      ensures chunkFile == Some(body)
      ensures infoFile == Some(replicationDegree)
    {
      chunkPath := ChunkPath(peerId, fileId, chunkNo);
      infoPath := InfoPath(peerId, fileId, chunkNo);
      chunkFile := Some(body);
      infoFile := Some(replicationDegree);
    }

    /**
     * `incReplication`: reads the counter and writes it back one LOWER
     * (one replication fewer is missing); a missing info file makes the
     * Scanner throw.
     */
    method IncReplication() returns (r: Result<()>)
      requires Valid()
      modifies this
      ensures Valid()
      ensures old(infoFile).None? ==> r == Err(IOException) && infoFile == None
      ensures old(infoFile).Some? ==> r == Ok(()) && infoFile == Some(Decrement(old(infoFile).value))
      ensures chunkFile == old(chunkFile)
    {
      match infoFile
      case None =>
        r := Err(IOException);
      case Some(necessaryReplication) =>
        infoFile := Some(Decrement(necessaryReplication));
        r := Ok(());
    }

    /** `getChunk`: the whole chunk file, or an IOException once it is gone. */
    method GetChunk() returns (r: Result<seq<Byte>>)
      ensures chunkFile.Some? ==> r == Ok(chunkFile.value)
      ensures chunkFile.None? ==> r == Err(IOException)
    {
      match chunkFile
      case None => r := Err(IOException);
      case Some(body) => r := Ok(body);
    }

    /**
     * `delete`: `chunkFile.delete() && infoFile.delete()`. A file is deleted
     * when it exists and the file system lets it go (the two flags). The
     * info file is not even tried when the chunk file stays.
     */
    method Delete(chunkRemovable: bool, infoRemovable: bool) returns (ok: bool)
      requires Valid()
      modifies this
      ensures Valid()
      ensures var chunkGone := old(chunkFile).Some? && chunkRemovable;
              var infoGone := chunkGone && old(infoFile).Some? && infoRemovable;
              && chunkFile == (if chunkGone then None else old(chunkFile))
              && infoFile == (if infoGone then None else old(infoFile))
              && (ok <==> infoGone)
    {
      ok := false;
      if chunkFile.Some? && chunkRemovable {
        chunkFile := None;
        if infoFile.Some? && infoRemovable {
          infoFile := None;
          ok := true;
        }
      }
    }
  }

  /** A freshly written chunk reads back as exactly the body it was given. */
  method StoreThenRead(peerId: string, fileId: string, chunkNo: int, replicationDegree: int, body: seq<Byte>)
    returns (r: Result<seq<Byte>>)
    requires IsInt32(replicationDegree)
    ensures r == Ok(body)
  {
    var info := new ChunkInfo(peerId, fileId, chunkNo, replicationDegree, body);
    r := info.GetChunk();
  }

  /**
   * After `n` acknowledgements the counter of a fresh record is
   * `degree - n`, and the degree counts as met exactly when `n >= degree`.
   */
  method CounterAfterAcknowledgements(peerId: string, fileId: string, chunkNo: int, replicationDegree: int,
                                      body: seq<Byte>, n: nat)
    returns (counter: int, fulfilled: bool)
    requires IsInt32(replicationDegree) && replicationDegree - n >= Int32Min
    ensures counter == replicationDegree - n
    ensures fulfilled <==> replicationDegree <= n
  {
    var info := new ChunkInfo(peerId, fileId, chunkNo, replicationDegree, body);
    var i := 0;
    while i < n
      invariant 0 <= i <= n
      invariant info.Valid()
      invariant info.infoFile == Some(replicationDegree - i)
    {
      var _ := info.IncReplication();
      i := i + 1;
    }
    counter := info.infoFile.value;
    fulfilled := info.Fulfilled();
  }
}
