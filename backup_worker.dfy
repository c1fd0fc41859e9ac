/**
 * `BackupWorker.call`: the backup of one chunk. PUTCHUNK is sent on the
 * data-backup channel, the worker sleeps, then reads the chunk's
 * replication; the wait doubles from 1000 ms and at most five rounds are
 * made. The replication counts the peer observes at each check and the
 * interrupts that arrive during each sleep are inputs.
 */
module Backup {
  import opened Common
  import opened Numbers

  const InitWaitTime: nat := 1000
  const TimeoutThreshold: nat := 5

  /** `[PUTCHUNK, version, id, fileId, chunkNo, degree]`. */
  function PutchunkHeader(version: string, id: string, fileId: string, chunkNo: int, replicationDegree: int): seq<string> {
    ["PUTCHUNK", version, id, fileId, DecimalString(chunkNo), DecimalString(replicationDegree)]
  }

  /**
   * A receiver of the header reads the message type and the file id back,
   * and `Integer.parseInt` gives it the chunk number and the degree, or
   * NumberFormatException for a value outside the `int` range.
   */
  lemma PutchunkHeaderReadsBack(version: string, id: string, fileId: string, chunkNo: int, replicationDegree: int)
    ensures var h := PutchunkHeader(version, id, fileId, chunkNo, replicationDegree);
      && |h| == 6 && h[0] == "PUTCHUNK" && h[1] == version && h[2] == id && h[3] == fileId
      && ParseInt(h[4]) == (if IsInt32(chunkNo) then Some(chunkNo) else None)
      && ParseInt(h[5]) == (if IsInt32(replicationDegree) then Some(replicationDegree) else None)
  {
    ParseDecimalTotal(chunkNo);
    ParseDecimalTotal(replicationDegree);
  }

  function Pow2(k: nat): (p: nat)
    ensures p >= 1
  {
    if k == 0 then 1 else 2 * Pow2(k - 1)
  }

  /**
   * One run of `call`. `observed[k]` is what `getChunkReplication` answers
   * at the k-th check; `interruptions[k]` says whether the thread is
   * interrupted during the k-th sleep. Returned: the result, the messages
   * sent, the wait requested before each check, whether each sleep lasted
   * its full time, and the thread's interrupt flag at the end.
   */
  method Call(version: string, id: string, fileId: string, chunk: seq<Byte>, chunkNo: int, replicationDegree: int,
              observed: seq<int>, interruptions: seq<bool>)
    returns (success: bool, sent: seq<Message>, waits: seq<nat>, sleptFully: seq<bool>, interrupted: bool)
    requires |observed| >= TimeoutThreshold && |interruptions| >= TimeoutThreshold
    ensures 1 <= |sent| <= TimeoutThreshold
    ensures |waits| == |sent| && |sleptFully| == |sent|
    ensures forall k :: 0 <= k < |sent| ==>
              sent[k] == Message(MDB, PutchunkHeader(version, id, fileId, chunkNo, replicationDegree), Some(chunk))
    ensures forall k :: 0 <= k < |waits| ==> waits[k] == InitWaitTime * Pow2(k)
    ensures forall k :: 0 <= k < |sent| - 1 ==> observed[k] < replicationDegree
    ensures success <==> observed[|sent| - 1] >= replicationDegree
    ensures !success ==> |sent| == TimeoutThreshold
    ensures success <==> exists k :: 0 <= k < TimeoutThreshold && observed[k] >= replicationDegree
    ensures forall k :: 0 <= k < |sleptFully| ==> (sleptFully[k] <==> true !in interruptions[..k + 1])
    ensures interrupted <==> true in interruptions[..|sent|]
  {
    var waitTime := InitWaitTime;
    var timeoutCounter := 0;
    var header := PutchunkHeader(version, id, fileId, chunkNo, replicationDegree);
    sent, waits, sleptFully, interrupted := [], [], [], false;
    while true
      invariant 0 <= timeoutCounter < TimeoutThreshold
      invariant |sent| == |waits| == |sleptFully| == timeoutCounter
      invariant waitTime == InitWaitTime * Pow2(timeoutCounter)
      invariant forall k :: 0 <= k < |sent| ==> sent[k] == Message(MDB, header, Some(chunk))
      invariant forall k :: 0 <= k < |waits| ==> waits[k] == InitWaitTime * Pow2(k)
      invariant forall k :: 0 <= k < timeoutCounter ==> observed[k] < replicationDegree
      invariant forall k :: 0 <= k < |sleptFully| ==> (sleptFully[k] <==> true !in interruptions[..k + 1])
      invariant interrupted <==> true in interruptions[..timeoutCounter]
      decreases TimeoutThreshold - timeoutCounter
    {
      sent := sent + [Message(MDB, header, Some(chunk))];
      waits := waits + [waitTime];
      // Thread.sleep throws at once when the flag is already set; the catch sets it again.
      sleptFully := sleptFully + [!interrupted && !interruptions[timeoutCounter]];
      interrupted := interrupted || interruptions[timeoutCounter];
      if observed[timeoutCounter] >= replicationDegree {
        success := true;
        return;
      }
      waitTime := waitTime * 2;
      timeoutCounter := timeoutCounter + 1;
      if timeoutCounter >= TimeoutThreshold {
        break;
      }
    }
    success := false;
  }

  /** The five waits are 1000, 2000, 4000, 8000 and 16000 ms. */
  lemma WaitSchedule()
    ensures seq(TimeoutThreshold, k requires 0 <= k => InitWaitTime * Pow2(k)) == [1000, 2000, 4000, 8000, 16000]
  {
    assert Pow2(1) == 2 && Pow2(2) == 4 && Pow2(3) == 8 && Pow2(4) == 16;
  }
}
