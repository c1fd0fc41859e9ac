/**
 * Runs of the message worker interleaved the way the random waits allow:
 * each lemma fixes one order of `BeginStep` and `EndStep` on peers that
 * start idle and states what the peers send and record. Number fields are
 * taken as received text that `parseInt` accepts.
 */
module Interleavings {
  import opened Common
  import opened Numbers
  import opened Dispatch
  import Backup

  /** The storage manager's answers for a peer that holds the chunk asked for. */
  const Holding := StorageAnswers(Ok(false), true, None)

  /**
   * A peer that holds a chunk and sees no CHUNK for it during its wait
   * answers GETCHUNK with CHUNK on the restore channel: the request's
   * header with type, version and sender replaced, and the chunk's body.
   */
  lemma GetChunkServed(version: string, requester: string, id: string, fileId: string, chunkField: string,
                       chunkNo: int, payload: seq<Byte>)
    requires ParseInt(chunkField) == Some(chunkNo)
    ensures var asked := BeginStep(id, Idle, ["GETCHUNK", version, requester, fileId, chunkField], Some([]), Holding);
            && Sleeping(asked.run)
            && var served := EndStep(id, version, asked.peer, asked.run, false, Ok(payload));
               && served.peer.outbox == [Message(MDR, ["CHUNK", version, id, fileId, chunkField], Some(payload))]
               && served.peer.storageLog == [HasChunk(fileId, chunkNo), GetChunk(fileId, chunkNo)]
               && served.peer.marks == {}
  {
    var request := ["GETCHUNK", version, requester, fileId, chunkField];
    assert ChunkNoOf(request) == Some(chunkNo) && KindOf(request[0]) == GETCHUNK;
    assert Reply("CHUNK", version, id, request) == ["CHUNK", version, id, fileId, chunkField];
  }

  /**
   * A peer that holds a chunk and overhears, during its wait, a CHUNK for
   * the same chunk from anyone stays silent and never reads the chunk.
   */
  lemma GetChunkOvertaken(version: string, requester: string, id: string, fileId: string, chunkField: string,
                          chunkNo: int, overheard: seq<string>, overheardBody: Option<seq<Byte>>, payload: seq<Byte>)
    requires ParseInt(chunkField) == Some(chunkNo)
    requires |overheard| >= 4 && overheard[0] == "CHUNK" && overheard[3] == fileId
    requires ChunkNoOf(overheard) == Some(chunkNo)
    ensures var asked := BeginStep(id, Idle, ["GETCHUNK", version, requester, fileId, chunkField], Some([]), Holding);
            var chunk := BeginStep(id, asked.peer, overheard, overheardBody, Holding);
            && Sleeping(asked.run)
            && var woken := EndStep(id, version, chunk.peer, asked.run, false, Ok(payload));
               && woken.peer.outbox == []
               && woken.peer.storageLog == [HasChunk(fileId, chunkNo)]
  {
    var request := ["GETCHUNK", version, requester, fileId, chunkField];
    assert ChunkNoOf(request) == Some(chunkNo) && KindOf(request[0]) == GETCHUNK;
    assert KindOf(overheard[0]) == CHUNK;
  }

  /**
   * Two peers that both hold a chunk receive the same GETCHUNK. The first
   * to wake sends CHUNK; that CHUNK reaches the second before it wakes,
   * and the second sends nothing: the requester gets the chunk once.
   */
  lemma GetChunkRace(version: string, requester: string, idA: string, idB: string, fileId: string,
                     chunkField: string, chunkNo: int, payloadA: seq<Byte>, payloadB: seq<Byte>)
    requires ParseInt(chunkField) == Some(chunkNo)
    ensures var request := ["GETCHUNK", version, requester, fileId, chunkField];
            var atA := BeginStep(idA, Idle, request, Some([]), Holding);
            var atB := BeginStep(idB, Idle, request, Some([]), Holding);
            && Sleeping(atA.run) && Sleeping(atB.run)
            && var servedA := EndStep(idA, version, atA.peer, atA.run, false, Ok(payloadA));
               && servedA.peer.outbox == [Message(MDR, ["CHUNK", version, idA, fileId, chunkField], Some(payloadA))]
               && var reply := servedA.peer.outbox[0];
                  var overheardAtB := BeginStep(idB, atB.peer, reply.header, reply.body, Holding);
                  EndStep(idB, version, overheardAtB.peer, atB.run, false, Ok(payloadB)).peer.outbox == []
  {
    GetChunkServed(version, requester, idA, fileId, chunkField, chunkNo, payloadA);
    var reply := ["CHUNK", version, idA, fileId, chunkField];
    assert ChunkNoOf(reply) == Some(chunkNo);
    GetChunkOvertaken(version, requester, idB, fileId, chunkField, chunkNo, reply, Some(payloadA), payloadB);
  }

  /**
   * A holder that sees REMOVED for a chunk and is not overtaken re-sends
   * PUTCHUNK with its own id, the record's degree and the record's body.
   */
  lemma RescueUncontested(version: string, id: string, remover: string, fileId: string, chunkField: string,
                          chunkNo: int, savedDegree: int, payload: seq<Byte>)
    requires ParseInt(chunkField) == Some(chunkNo)
    ensures var notice := ["REMOVED", version, remover, fileId, chunkField];
            var record := StorageAnswers(Ok(false), false, Some(SavedChunk(savedDegree, Ok(payload))));
            var flagged := BeginStep(id, Idle, notice, Some([]), record);
            && Sleeping(flagged.run)
            && var woken := EndStep(id, version, flagged.peer, flagged.run, false, Ok([]));
               && woken.peer.outbox ==
                    [Message(MDB, Backup.PutchunkHeader(version, id, fileId, chunkNo, savedDegree), Some(payload))]
               && woken.peer.storageLog == [SignalRemoveChunk(fileId, chunkNo)]
               && woken.peer.rescueFlags == {}
  {
    var notice := ["REMOVED", version, remover, fileId, chunkField];
    assert ChunkNoOf(notice) == Some(chunkNo) && KindOf(notice[0]) == REMOVED;
  }

  /**
   * A PUTCHUNK for the chunk that arrives during the wait after REMOVED,
   * from another peer or from this peer itself, cancels the rescue; a
   * PUTCHUNK from another peer is passed on to be stored.
   */
  lemma RescueOvertaken(version: string, id: string, remover: string, putter: string, fileId: string,
                        chunkField: string, chunkNo: int, degreeField: string, degree: int, savedDegree: int,
                        payload: seq<Byte>, stored: Result<bool>)
    requires ParseInt(chunkField) == Some(chunkNo) && ParseInt(degreeField) == Some(degree)
    ensures var notice := ["REMOVED", version, remover, fileId, chunkField];
            var record := StorageAnswers(Ok(false), false, Some(SavedChunk(savedDegree, Ok(payload))));
            var flagged := BeginStep(id, Idle, notice, Some([]), record);
            var putchunk := ["PUTCHUNK", version, putter, fileId, chunkField, degreeField];
            var overtaken := BeginStep(id, flagged.peer, putchunk, Some(payload), StorageAnswers(stored, false, None));
            && Sleeping(flagged.run)
            && var woken := EndStep(id, version, overtaken.peer, flagged.run, false, Ok([]));
               && woken.peer.outbox == []
               && (putter == id ==> woken.peer.storageLog == [SignalRemoveChunk(fileId, chunkNo)])
               && (putter != id ==>
                     woken.peer.storageLog ==
                     [SignalRemoveChunk(fileId, chunkNo), StoreChunk(fileId, chunkNo, degree, Some(payload))])
  {
    var notice := ["REMOVED", version, remover, fileId, chunkField];
    var putchunk := ["PUTCHUNK", version, putter, fileId, chunkField, degreeField];
    assert ChunkNoOf(notice) == Some(chunkNo) && KindOf(notice[0]) == REMOVED;
    assert ChunkNoOf(putchunk) == Some(chunkNo) && KindOf(putchunk[0]) == PUTCHUNK;
  }

  /**
   * A peer that stores a PUTCHUNK from another peer answers STORED on the
   * control channel: the received header with type, version and sender
   * replaced, the chunk number and degree fields kept as received.
   */
  lemma StoreAndAcknowledge(version: string, id: string, initiator: string, fileId: string, chunkField: string,
                            chunkNo: int, degreeField: string, degree: int, payload: seq<Byte>)
    requires ParseInt(chunkField) == Some(chunkNo) && ParseInt(degreeField) == Some(degree) && initiator != id
    ensures var putchunk := ["PUTCHUNK", version, initiator, fileId, chunkField, degreeField];
            var stored := BeginStep(id, Idle, putchunk, Some(payload), StorageAnswers(Ok(true), false, None));
            && Sleeping(stored.run)
            && var woken := EndStep(id, version, stored.peer, stored.run, false, Ok([]));
               && woken.peer.outbox == [Message(MC, ["STORED", version, id, fileId, chunkField, degreeField], None)]
               && woken.peer.storageLog == [StoreChunk(fileId, chunkNo, degree, Some(payload))]
  {
    var putchunk := ["PUTCHUNK", version, initiator, fileId, chunkField, degreeField];
    assert ChunkNoOf(putchunk) == Some(chunkNo) && KindOf(putchunk[0]) == PUTCHUNK;
    assert Reply("STORED", version, id, putchunk) == ["STORED", version, id, fileId, chunkField, degreeField];
  }

  /**
   * The backup initiator's PUTCHUNK, as `BackupWorker` builds it, is
   * stored and acknowledged by any other peer with its own numbers.
   */
  lemma BackupIsAcknowledged(version: string, id: string, initiator: string, fileId: string, chunkNo: int,
                             degree: int, payload: seq<Byte>)
    requires IsInt32(chunkNo) && IsInt32(degree) && initiator != id
    ensures var putchunk := Backup.PutchunkHeader(version, initiator, fileId, chunkNo, degree);
            var stored := BeginStep(id, Idle, putchunk, Some(payload), StorageAnswers(Ok(true), false, None));
            && Sleeping(stored.run)
            && var woken := EndStep(id, version, stored.peer, stored.run, false, Ok([]));
               && woken.peer.outbox ==
                    [Message(MC, ["STORED", version, id, fileId, DecimalString(chunkNo), DecimalString(degree)], None)]
               && woken.peer.storageLog == [StoreChunk(fileId, chunkNo, degree, Some(payload))]
  {
    ParseDecimal(chunkNo);
    ParseDecimal(degree);
    StoreAndAcknowledge(version, id, initiator, fileId, DecimalString(chunkNo), chunkNo,
                        DecimalString(degree), degree, payload);
  }

  /**
   * DELETE falls through into the CHUNK case with chunk number 0: after
   * `deleteChunks`, a restore slot open for chunk 0 of that file is filled
   * with the DELETE message's body.
   */
  lemma DeleteFillsSlotZero(version: string, id: string, initiator: string, fileId: string, body: seq<Byte>)
    ensures var waiting := Idle.(slots := map[ChunkKey(fileId, 0) := None]);
            var deleted := BeginStep(id, waiting, ["DELETE", version, initiator, fileId], Some(body), Holding);
            && deleted.peer.slots == map[ChunkKey(fileId, 0) := Some(body)]
            && deleted.peer.storageLog == [DeleteChunks(fileId)]
  {
    var delete := ["DELETE", version, initiator, fileId];
    assert ChunkNoOf(delete) == Some(0) && KindOf(delete[0]) == DELETE;
  }
}
