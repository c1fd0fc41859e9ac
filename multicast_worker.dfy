/**
 * `MulticastWorker.run`: what one peer does with one received message.
 * The random wait of 0..400 ms splits a run into two steps, `Begin` (up
 * to the sleep) and `End` (after it); other messages may be handled in
 * between, which is how the collision-avoidance flags take effect. The
 * storage manager's operations are not modelled: each call is appended
 * to a log and its answer is an input of the step that makes it.
 */
module Dispatch {
  import opened Common
  import opened Numbers
  import opened Restore
  import Backup

  const MessageTypes: set<string> := {"PUTCHUNK", "STORED", "GETCHUNK", "CHUNK", "DELETE", "REMOVED"}

  /** The cases of the switch on `header[0]`; any other string matches none of them. */
  datatype Kind = PUTCHUNK | STORED | GETCHUNK | CHUNK | DELETE | REMOVED | Unrecognised

  /** The case label a kind is matched by. */
  function Label(k: Kind): (s: string)
    requires !k.Unrecognised?
    ensures s in MessageTypes
  {
    match k
    case PUTCHUNK => "PUTCHUNK"
    case STORED => "STORED"
    case GETCHUNK => "GETCHUNK"
    case CHUNK => "CHUNK"
    case DELETE => "DELETE"
    case REMOVED => "REMOVED"
  }

  /** The case of the switch that `header[0]` selects. */
  function KindOf(field: string): (k: Kind)
    ensures k.Unrecognised? <==> field !in MessageTypes
    ensures !k.Unrecognised? ==> field == Label(k)
  {
    if field == "PUTCHUNK" then PUTCHUNK
    else if field == "STORED" then STORED
    else if field == "GETCHUNK" then GETCHUNK
    else if field == "CHUNK" then CHUNK
    else if field == "DELETE" then DELETE
    else if field == "REMOVED" then REMOVED
    else Unrecognised
  }

  /** Every case label selects its own case, so no two cases share a label. */
  lemma KindOfLabel(k: Kind)
    requires !k.Unrecognised?
    ensures KindOf(Label(k)) == k
  {
  }

  /** A call into the storage manager, in the order the worker makes it. */
  datatype StorageCall =
    | StoreChunk(fileId: string, chunkNo: int, replicationDegree: int, body: Option<seq<Byte>>)
    | SignalStoreChunk(fileId: string, chunkNo: int)
    | HasChunk(fileId: string, chunkNo: int)
    | GetChunk(fileId: string, chunkNo: int)
    | DeleteChunks(fileId: string)
    | SignalRemoveChunk(fileId: string, chunkNo: int)

  /** The record `signalRemoveChunk` hands back: its degree and what reading its chunk file yields. */
  datatype SavedChunk = SavedChunk(replicationDegree: int, payload: Result<seq<Byte>>)

  /** The storage manager's answers to the calls made before the wait. */
  datatype StorageAnswers = StorageAnswers(stored: Result<bool>, holds: bool, removed: Option<SavedChunk>)

  /** How a run ends: normally, through the catch clause, or by an exception that escapes `run`. */
  datatype Outcome = Handled | Discarded(cause: Exception) | Escaped(cause: Exception)

  datatype Phase = Ready | Waiting | Finished(outcome: Outcome)

  /** `catch (InterruptedException | IOException e)`: those two discard the message, the rest escape. */
  function Caught(e: Exception): (o: Outcome)
    ensures o.Discarded? <==> e == IOException || e == InterruptedException
    ensures o.Discarded? || o.Escaped?
  {
    if e == IOException || e == InterruptedException then Discarded(e) else Escaped(e)
  }

  /** `chunkNo`: `parseInt(header[4])` when the header has more than four fields, else 0; None when parsing throws. */
  function ChunkNoOf(header: seq<string>): (n: Option<int>)
    ensures |header| <= 4 ==> n == Some(0)
    ensures n.Some? ==> IsInt32(n.value)
  {
    if |header| > 4 then ParseInt(header[4]) else Some(0)
  }

  /** A header the switch gets past `header[3]` with. */
  predicate Dispatchable(header: seq<string>) {
    ChunkNoOf(header).Some? && |header| >= 4 && !KindOf(header[0]).Unrecognised?
  }

  /** What follows `storeChunk`'s answer: the wait before STORED, nothing, or the catch clause. */
  function AfterStore(stored: Result<bool>): Phase {
    match stored
    case Ok(true) => Waiting
    case Ok(false) => Finished(Handled)
    case Err(e) => Finished(Caught(e))
  }

  /** A reply built from the received header by overwriting fields 0 to 2; the other fields are kept. */
  function Reply(kind: string, version: string, id: string, received: seq<string>): (reply: seq<string>)
    requires |received| >= 3
    ensures |reply| == |received|
    ensures reply[0] == kind && reply[1] == version && reply[2] == id
    ensures forall i :: 3 <= i < |received| ==> reply[i] == received[i]
  {
    [kind, version, id] + received[3..]
  }

  /** The state one peer's workers share, as a value. */
  datatype PeerState = PeerState(
    /** `RestoreManager.flagMap`: chunks with a CHUNK reply pending. */
    marks: set<string>,
    /** `RestoreManager.chunkMap`. */
    slots: map<string, Option<seq<Byte>>>,
    /** `MulticastWorker.flagMap`: chunks with a rescue PUTCHUNK pending. */
    rescueFlags: set<string>,
    /** Messages handed to `mc`, `mdb` and `mdr`, in order. */
    outbox: seq<Message>,
    /** Calls into the storage manager, in order. */
    storageLog: seq<StorageCall>)

  /** A peer before it has handled any message. */
  const Idle := PeerState({}, map[], {}, [], [])

  /** One run of the worker: its header (rewritten in place for replies), chunk number, kept record and phase. */
  datatype Run = Run(header: seq<string>, chunkNo: int, saved: Option<SavedChunk>, phase: Phase)

  datatype Config = Config(peer: PeerState, run: Run)

  /** A run that sleeps: one of the three cases that wait, past its header checks. */
  predicate Sleeping(r: Run) {
    && r.phase == Waiting
    && |r.header| >= 4
    && (KindOf(r.header[0]) == PUTCHUNK || KindOf(r.header[0]) == GETCHUNK
        || (KindOf(r.header[0]) == REMOVED && r.saved.Some?))
  }

  /** `after` is `before` with at most one element appended. */
  predicate AppendsAtMostOne<T(==)>(before: seq<T>, after: seq<T>) {
    |before| <= |after| <= |before| + 1 && after[..|before|] == before
  }

  /**
   * `run` up to its sleep, or to its end for the messages that do not
   * sleep, on the peer with id `id`; `answers` are the storage manager's
   * answers to the calls made.
   */
  function BeginStep(id: string, s: PeerState, header: seq<string>, body: Option<seq<Byte>>,
                     answers: StorageAnswers): (c: Config)
    ensures c.run.header == header
    ensures c.run.phase != Ready
    ensures c.run.phase == Waiting ==> Sleeping(c.run)
    ensures c.peer.outbox == s.outbox
    ensures AppendsAtMostOne(s.storageLog, c.peer.storageLog)
  {
    match ChunkNoOf(header)
    case None => Config(s, Run(header, 0, None, Finished(Escaped(NumberFormatException))))
    case Some(n) =>
      var done := Run(header, n, None, Finished(Handled));
      if |header| == 0 then Config(s, done.(phase := Finished(Escaped(IndexOutOfBounds))))
      else if KindOf(header[0]).Unrecognised? then Config(s, done)
      else if |header| < 4 then Config(s, done.(phase := Finished(Escaped(IndexOutOfBounds))))
      else Deliver(id, s, header, n, body, answers)
  }

  /** The switch on `header[0]`, for a header the checks have let through with chunk number `n`. */
  function Deliver(id: string, s: PeerState, header: seq<string>, n: int, body: Option<seq<Byte>>,
                   answers: StorageAnswers): (c: Config)
    requires |header| >= 4 && !KindOf(header[0]).Unrecognised?
    ensures c.run.header == header && c.run.chunkNo == n
    ensures c.run.phase != Ready
    ensures c.run.phase == Waiting ==> Sleeping(c.run)
    ensures c.peer.outbox == s.outbox
    ensures AppendsAtMostOne(s.storageLog, c.peer.storageLog)
  {
    var fileId := header[3];
    var key := ChunkKey(fileId, n);
    var done := Run(header, n, None, Finished(Handled));
    match KindOf(header[0])
    case PUTCHUNK =>
      var cancelled := s.(rescueFlags := s.rescueFlags - {key});
      if header[2] == id then Config(cancelled, done)
      else if |header| <= 5 then Config(cancelled, done.(phase := Finished(Escaped(IndexOutOfBounds))))
      else (
        match ParseInt(header[5])
        case None => Config(cancelled, done.(phase := Finished(Escaped(NumberFormatException))))
        case Some(degree) =>
          Config(cancelled.(storageLog := s.storageLog + [StoreChunk(fileId, n, degree, body)]),
                 done.(phase := AfterStore(answers.stored))))
    case STORED =>
      Config(s.(storageLog := s.storageLog + [SignalStoreChunk(fileId, n)]), done)
    case GETCHUNK =>
      var asked := s.(storageLog := s.storageLog + [HasChunk(fileId, n)]);
      if answers.holds then Config(asked.(marks := s.marks + {key}), done.(phase := Waiting))
      else Config(asked, done)
    case DELETE =>
      // no break: DELETE falls through into the CHUNK case
      Config(s.(storageLog := s.storageLog + [DeleteChunks(fileId)],
                marks := s.marks - {key}, slots := Replace(s.slots, key, body)), done)
    case CHUNK =>
      Config(s.(marks := s.marks - {key}, slots := Replace(s.slots, key, body)), done)
    case REMOVED =>
      var asked := s.(storageLog := s.storageLog + [SignalRemoveChunk(fileId, n)]);
      if answers.removed.Some? then
        Config(asked.(rescueFlags := s.rescueFlags + {key}), done.(saved := answers.removed, phase := Waiting))
      else Config(asked, done)
  }

  /**
   * `run` after its sleep, on the peer with id `id` and protocol version
   * `version`. `interrupted` says whether the sleep was interrupted;
   * `chunk` is what `StorageManager.getChunk` answers.
   */
  function EndStep(id: string, version: string, s: PeerState, r: Run, interrupted: bool,
                   chunk: Result<seq<Byte>>): (c: Config)
    requires Sleeping(r)
    ensures c.run.phase.Finished?
    ensures c.run.chunkNo == r.chunkNo && c.run.saved == r.saved
    ensures c.peer.slots == s.slots
    ensures c.peer.marks <= s.marks && c.peer.rescueFlags <= s.rescueFlags
    ensures AppendsAtMostOne(s.outbox, c.peer.outbox)
    ensures AppendsAtMostOne(s.storageLog, c.peer.storageLog)
  {
    if interrupted then Config(s, r.(phase := Finished(Discarded(InterruptedException))))
    else Wake(id, version, s, r, chunk)
  }

  /** `run` after a sleep that lasted its full time. */
  function Wake(id: string, version: string, s: PeerState, r: Run, chunk: Result<seq<Byte>>): (c: Config)
    requires Sleeping(r)
    ensures c.run.phase.Finished?
    ensures c.run.chunkNo == r.chunkNo && c.run.saved == r.saved
    ensures c.peer.slots == s.slots
    ensures c.peer.marks <= s.marks && c.peer.rescueFlags <= s.rescueFlags
    ensures AppendsAtMostOne(s.outbox, c.peer.outbox)
    ensures AppendsAtMostOne(s.storageLog, c.peer.storageLog)
  {
      var fileId := r.header[3];
      var key := ChunkKey(fileId, r.chunkNo);
      match KindOf(r.header[0])
      case PUTCHUNK =>
        var reply := Reply("STORED", version, id, r.header);
        Config(s.(outbox := s.outbox + [Message(MC, reply, None)]), r.(header := reply, phase := Finished(Handled)))
      case GETCHUNK =>
        if key !in s.marks then Config(s, r.(phase := Finished(Handled)))
        else
          var reply := Reply("CHUNK", version, id, r.header);
          var served := s.(marks := s.marks - {key}, storageLog := s.storageLog + [GetChunk(fileId, r.chunkNo)]);
          (match chunk
           case Err(e) => Config(served, r.(header := reply, phase := Finished(Caught(e))))
           case Ok(payload) =>
             Config(served.(outbox := s.outbox + [Message(MDR, reply, Some(payload))]),
                    r.(header := reply, phase := Finished(Handled))))
      case REMOVED =>
        var cleared := s.(rescueFlags := s.rescueFlags - {key});
        if key !in s.rescueFlags then Config(cleared, r.(phase := Finished(Handled)))
        else
          var record := r.saved.value;
          var rescue := Backup.PutchunkHeader(version, id, fileId, r.chunkNo, record.replicationDegree);
          (match record.payload
           case Err(e) => Config(cleared, r.(phase := Finished(Caught(e))))
           case Ok(payload) =>
             Config(cleared.(outbox := s.outbox + [Message(MDB, rescue, Some(payload))]), r.(phase := Finished(Handled))))
  }

  /**
   * A header the switch cannot act on leaves the peer as it was: an
   * unparsable chunk number escapes, an unknown type is ignored, and a
   * known type with fewer than four fields escapes at `header[3]`.
   */
  lemma UndispatchableChangesNothing(id: string, s: PeerState, header: seq<string>, body: Option<seq<Byte>>,
                                     answers: StorageAnswers)
    requires !Dispatchable(header)
    ensures var c := BeginStep(id, s, header, body, answers);
            && c.peer == s
            && (ChunkNoOf(header).None? ==> c.run.phase == Finished(Escaped(NumberFormatException)))
            && (ChunkNoOf(header).Some? && |header| > 0 && KindOf(header[0]).Unrecognised? ==>
                  c.run.phase == Finished(Handled))
            && (ChunkNoOf(header).Some? && (|header| == 0 || (|header| < 4 && !KindOf(header[0]).Unrecognised?)) ==>
                  c.run.phase == Finished(Escaped(IndexOutOfBounds)))
  {
  }

  /**
   * A run sleeps exactly when it is a PUTCHUNK from another peer that was
   * stored, a GETCHUNK for a chunk the peer holds, or a REMOVED for a chunk
   * whose record the peer still had.
   */
  lemma SleepsExactly(id: string, s: PeerState, header: seq<string>, body: Option<seq<Byte>>, answers: StorageAnswers)
    ensures BeginStep(id, s, header, body, answers).run.phase == Waiting <==>
              && Dispatchable(header)
              && ((KindOf(header[0]) == PUTCHUNK && header[2] != id && |header| > 5 && ParseInt(header[5]).Some?
                   && answers.stored == Ok(true))
                  || (KindOf(header[0]) == GETCHUNK && answers.holds)
                  || (KindOf(header[0]) == REMOVED && answers.removed.Some?))
  {
  }

  /**
   * PUTCHUNK cancels the rescue pending for that chunk, whoever sent it;
   * the peer's own PUTCHUNK is never stored, another peer's is stored with
   * the degree its sixth field gives.
   */
  lemma PutchunkCancelsRescue(id: string, s: PeerState, header: seq<string>, body: Option<seq<Byte>>,
                              answers: StorageAnswers)
    requires Dispatchable(header) && KindOf(header[0]) == PUTCHUNK
    ensures var c := BeginStep(id, s, header, body, answers);
            var n := ChunkNoOf(header).value;
            && c.peer.rescueFlags == s.rescueFlags - {ChunkKey(header[3], n)}
            && c.peer.marks == s.marks && c.peer.slots == s.slots
            && (header[2] == id ==> c.peer.storageLog == s.storageLog && c.run.phase == Finished(Handled))
            && (header[2] != id && |header| <= 5 ==>
                  c.peer.storageLog == s.storageLog && c.run.phase == Finished(Escaped(IndexOutOfBounds)))
            && (header[2] != id && |header| > 5 && ParseInt(header[5]).None? ==>
                  c.peer.storageLog == s.storageLog && c.run.phase == Finished(Escaped(NumberFormatException)))
            && (header[2] != id && |header| > 5 && ParseInt(header[5]).Some? ==>
                  c.peer.storageLog == s.storageLog + [StoreChunk(header[3], n, ParseInt(header[5]).value, body)]
                  && c.run.phase == AfterStore(answers.stored))
  {
    var n := ChunkNoOf(header).value;
    assert BeginStep(id, s, header, body, answers) == Deliver(id, s, header, n, body, answers);
  }

  /** STORED is passed to the storage manager and touches none of the flags. */
  lemma StoredOnlySignals(id: string, s: PeerState, header: seq<string>, body: Option<seq<Byte>>,
                          answers: StorageAnswers)
    requires Dispatchable(header) && KindOf(header[0]) == STORED
    ensures var c := BeginStep(id, s, header, body, answers);
            && c.peer == s.(storageLog := s.storageLog + [SignalStoreChunk(header[3], ChunkNoOf(header).value)])
            && c.run.phase == Finished(Handled)
  {
  }

  /** GETCHUNK asks whether the chunk is held, and marks it exactly when it is. */
  lemma GetchunkMarksHeldChunk(id: string, s: PeerState, header: seq<string>, body: Option<seq<Byte>>,
                               answers: StorageAnswers)
    requires Dispatchable(header) && KindOf(header[0]) == GETCHUNK
    ensures var c := BeginStep(id, s, header, body, answers);
            var key := ChunkKey(header[3], ChunkNoOf(header).value);
            && c.peer.storageLog == s.storageLog + [HasChunk(header[3], ChunkNoOf(header).value)]
            && c.peer.marks == (if answers.holds then s.marks + {key} else s.marks)
            && c.peer.slots == s.slots && c.peer.rescueFlags == s.rescueFlags
  {
  }

  /**
   * CHUNK, and DELETE through its fall-through, clears the chunk's mark
   * and fills its restore slot when one is open and the body was framed.
   */
  lemma ChunkFillsOpenSlot(id: string, s: PeerState, header: seq<string>, body: Option<seq<Byte>>,
                           answers: StorageAnswers)
    requires Dispatchable(header) && (KindOf(header[0]) == CHUNK || KindOf(header[0]) == DELETE)
    ensures var c := BeginStep(id, s, header, body, answers);
            var key := ChunkKey(header[3], ChunkNoOf(header).value);
            && c.peer.marks == s.marks - {key}
            && c.peer.slots.Keys == s.slots.Keys
            && (key in s.slots && body.Some? ==> c.peer.slots[key] == body)
            && (forall k :: k in s.slots && k != key ==> c.peer.slots[k] == s.slots[k])
            && c.peer.storageLog == s.storageLog + (if KindOf(header[0]) == DELETE then [DeleteChunks(header[3])] else [])
            && c.run.phase == Finished(Handled)
  {
  }

  /** REMOVED reports the loss; a peer that still had the record flags a rescue and keeps the record. */
  lemma RemovedFlagsRescue(id: string, s: PeerState, header: seq<string>, body: Option<seq<Byte>>,
                           answers: StorageAnswers)
    requires Dispatchable(header) && KindOf(header[0]) == REMOVED
    ensures var c := BeginStep(id, s, header, body, answers);
            var key := ChunkKey(header[3], ChunkNoOf(header).value);
            && c.peer.storageLog == s.storageLog + [SignalRemoveChunk(header[3], ChunkNoOf(header).value)]
            && c.peer.rescueFlags == (if answers.removed.Some? then s.rescueFlags + {key} else s.rescueFlags)
            && c.run.saved == answers.removed
            && c.peer.marks == s.marks && c.peer.slots == s.slots
  {
  }

  /** An interrupted sleep discards the message: nothing is sent and nothing changes. */
  lemma InterruptedSleepDiscards(id: string, version: string, s: PeerState, r: Run, chunk: Result<seq<Byte>>)
    requires Sleeping(r)
    ensures var c := EndStep(id, version, s, r, true, chunk);
            c.peer == s && c.run == r.(phase := Finished(Discarded(InterruptedException)))
  {
  }

  /**
   * After its wait a stored PUTCHUNK is acknowledged on the control channel
   * by one STORED carrying the received file id, chunk number and degree.
   */
  lemma StoredAcknowledges(id: string, version: string, s: PeerState, r: Run, chunk: Result<seq<Byte>>)
    requires Sleeping(r) && KindOf(r.header[0]) == PUTCHUNK
    ensures var c := EndStep(id, version, s, r, false, chunk);
            && c.peer == s.(outbox := s.outbox + [Message(MC, c.run.header, None)])
            && c.run.header == Reply("STORED", version, id, r.header)
            && c.run.header[3..] == r.header[3..]
            && c.run.phase == Finished(Handled)
  {
  }

  /**
   * After its wait a GETCHUNK is answered exactly when its mark is still
   * there and the chunk can be read; the mark is consumed either way.
   */
  lemma ChunkSentIffMarkSurvives(id: string, version: string, s: PeerState, r: Run, chunk: Result<seq<Byte>>)
    requires Sleeping(r) && KindOf(r.header[0]) == GETCHUNK
    ensures var c := EndStep(id, version, s, r, false, chunk);
            var key := ChunkKey(r.header[3], r.chunkNo);
            && c.peer.marks == s.marks - {key}
            && (|c.peer.outbox| > |s.outbox| <==> key in s.marks && chunk.Ok?)
            && (key in s.marks && chunk.Ok? ==>
                  c.peer.outbox == s.outbox + [Message(MDR, Reply("CHUNK", version, id, r.header), Some(chunk.value))])
            && (key in s.marks <==> c.peer.storageLog == s.storageLog + [GetChunk(r.header[3], r.chunkNo)])
            && (key !in s.marks ==> c.peer == s)
  {
  }

  /**
   * After its wait a REMOVED leads to a rescue PUTCHUNK exactly when its
   * flag is still up and the record's chunk file can be read; the rescue
   * carries this peer's id and the record's degree and body.
   */
  lemma RescueSentIffFlagSurvives(id: string, version: string, s: PeerState, r: Run, chunk: Result<seq<Byte>>)
    requires Sleeping(r) && KindOf(r.header[0]) == REMOVED
    ensures var c := EndStep(id, version, s, r, false, chunk);
            var key := ChunkKey(r.header[3], r.chunkNo);
            var record := r.saved.value;
            && c.peer.rescueFlags == s.rescueFlags - {key}
            && (|c.peer.outbox| > |s.outbox| <==> key in s.rescueFlags && record.payload.Ok?)
            && (key in s.rescueFlags && record.payload.Ok? ==>
                  c.peer.outbox == s.outbox + [Message(MDB,
                    Backup.PutchunkHeader(version, id, r.header[3], r.chunkNo, record.replicationDegree),
                    Some(record.payload.value))])
            && c.peer.storageLog == s.storageLog && c.peer.marks == s.marks
  {
  }

  /** The process-wide state the workers of one peer share. */
  class Peer {
    const id: string
    const version: string
    /** `RestoreManager`'s static maps. */
    const restore: RestoreManager
    var rescueFlags: set<string>
    var outbox: seq<Message>
    var storageLog: seq<StorageCall>

    function State(): PeerState
      reads this, restore
    {
      PeerState(restore.flags, restore.slots, rescueFlags, outbox, storageLog)
    }

    constructor (id: string, version: string)
      ensures this.id == id && this.version == version
      ensures fresh(restore) && State() == Idle
    {
      this.id := id;
      this.version := version;
      restore := new RestoreManager();
      rescueFlags := {};
      outbox := [];
      storageLog := [];
    }
  }

  class Worker {
    const peer: Peer
    /** The received header; replies are built by overwriting it in place. */
    const header: array<string>
    /** The received body; None when the message had no terminator. */
    const body: Option<seq<Byte>>
    /** `new Random().nextInt(401)`. */
    const waitTime: nat
    var chunkNo: int
    /** REMOVED: the record kept across the wait. */
    var saved: Option<SavedChunk>
    var phase: Phase

    function State(): Run
      reads this, header
    {
      Run(header[..], chunkNo, saved, phase)
    }

    ghost predicate Valid()
      reads this, header
    {
      phase == Waiting ==> Sleeping(State())
    }

    constructor (peer: Peer, received: seq<string>, body: Option<seq<Byte>>, waitTime: nat)
      requires waitTime <= 400
      ensures Valid() && fresh(header)
      ensures this.peer == peer && this.body == body && this.waitTime == waitTime
      ensures State() == Run(received, 0, None, Ready)
    {
      this.peer := peer;
      header := new string[|received|](i requires 0 <= i < |received| => received[i]);
      this.body := body;
      this.waitTime := waitTime;
      chunkNo := 0;
      saved := None;
      phase := Ready;
    }

    /** `run` up to its sleep, or to its end for the cases that do not sleep; a worker runs once. */
    method Begin(answers: StorageAnswers)
      requires phase == Ready && saved.None?
      modifies this, peer, peer.restore
      ensures Valid()
      ensures Config(peer.State(), State()) == BeginStep(peer.id, old(peer.State()), header[..], body, answers)
    {
      chunkNo := 0;
      if header.Length > 4 {
        match ParseInt(header[4])
        case None =>
          phase := Finished(Escaped(NumberFormatException));
          return;
        case Some(v) =>
          chunkNo := v;
      }
      if header.Length == 0 {
        phase := Finished(Escaped(IndexOutOfBounds));
        return;
      }
      var kind := KindOf(header[0]);
      if kind.Unrecognised? {
        phase := Finished(Handled);
        return;
      }
      if header.Length < 4 {
        phase := Finished(Escaped(IndexOutOfBounds));
        return;
      }
      ghost var before := peer.State();
      assert BeginStep(peer.id, before, header[..], body, answers) == Deliver(peer.id, before, header[..], chunkNo, body, answers);
      match kind
      case PUTCHUNK => OnPutchunk(answers);
      case STORED => OnStored(answers);
      case GETCHUNK => OnGetchunk(answers);
      case DELETE => OnChunk(answers);
      case CHUNK => OnChunk(answers);
      case REMOVED => OnRemoved(answers);
    }

    /** `run` is past its header checks, in the case of the switch for `kind`. */
    ghost predicate Checked(kind: Kind)
      reads this, header
    {
      phase == Ready && saved.None? && header.Length >= 4 && KindOf(header[0]) == kind
    }

    /** `case "PUTCHUNK"`: cancel a pending rescue, then store a chunk another peer backs up. */
    method OnPutchunk(answers: StorageAnswers)
      requires Checked(PUTCHUNK)
      modifies this, peer
      ensures Config(peer.State(), State()) == Deliver(peer.id, old(peer.State()), header[..], old(chunkNo), body, answers)
    {
      var fileId := header[3];
      peer.rescueFlags := peer.rescueFlags - {ChunkKey(fileId, chunkNo)};
      if header[2] == peer.id {
        phase := Finished(Handled);
      } else if header.Length <= 5 {
        phase := Finished(Escaped(IndexOutOfBounds));
      } else {
        match ParseInt(header[5])
        case None =>
          phase := Finished(Escaped(NumberFormatException));
        case Some(degree) =>
          peer.storageLog := peer.storageLog + [StoreChunk(fileId, chunkNo, degree, body)];
          phase := AfterStore(answers.stored);
      }
    }

    /** `case "STORED"`. */
    method OnStored(answers: StorageAnswers)
      requires Checked(STORED)
      modifies this, peer
      ensures Config(peer.State(), State()) == Deliver(peer.id, old(peer.State()), header[..], old(chunkNo), body, answers)
    {
      peer.storageLog := peer.storageLog + [SignalStoreChunk(header[3], chunkNo)];
      phase := Finished(Handled);
    }

    /** `case "GETCHUNK"`: a peer holding the chunk marks it before its wait. */
    method OnGetchunk(answers: StorageAnswers)
      requires Checked(GETCHUNK)
      modifies this, peer, peer.restore
      ensures Config(peer.State(), State()) == Deliver(peer.id, old(peer.State()), header[..], old(chunkNo), body, answers)
    {
      peer.storageLog := peer.storageLog + [HasChunk(header[3], chunkNo)];
      if answers.holds {
        peer.restore.MarkChunk(header[3], chunkNo);
        phase := Waiting;
      } else {
        phase := Finished(Handled);
      }
    }

    /** `case "DELETE"`, which has no `break`, and `case "CHUNK"`: unmark the chunk and fill its slot. */
    method OnChunk(answers: StorageAnswers)
      requires Checked(DELETE) || Checked(CHUNK)
      modifies this, peer, peer.restore
      ensures Config(peer.State(), State()) == Deliver(peer.id, old(peer.State()), header[..], old(chunkNo), body, answers)
    {
      if header[0] == "DELETE" {
        peer.storageLog := peer.storageLog + [DeleteChunks(header[3])];
      }
      peer.restore.UnMarkChunk(header[3], chunkNo);
      peer.restore.PutChunk(header[3], chunkNo, body);
      phase := Finished(Handled);
    }

    /** `case "REMOVED"`: a peer that held the chunk flags a rescue and keeps the record across its wait. */
    method OnRemoved(answers: StorageAnswers)
      requires Checked(REMOVED)
      modifies this, peer
      ensures Config(peer.State(), State()) == Deliver(peer.id, old(peer.State()), header[..], old(chunkNo), body, answers)
    {
      peer.storageLog := peer.storageLog + [SignalRemoveChunk(header[3], chunkNo)];
      if answers.removed.Some? {
        saved := answers.removed;
        peer.rescueFlags := peer.rescueFlags + {ChunkKey(header[3], chunkNo)};
        phase := Waiting;
      } else {
        phase := Finished(Handled);
      }
    }

    /**
     * `run` after its sleep. `interrupted` says whether the sleep was
     * interrupted; `chunk` is what `StorageManager.getChunk` answers.
     */
    method End(interrupted: bool, chunk: Result<seq<Byte>>)
      requires Valid() && phase == Waiting
      modifies this, header, peer, peer.restore
      ensures Config(peer.State(), State()) == EndStep(peer.id, peer.version, old(peer.State()), old(State()), interrupted, chunk)
    {
      if interrupted {
        phase := Finished(Discarded(InterruptedException));
        return;
      }
      ghost var before := peer.State();
      assert EndStep(peer.id, peer.version, before, State(), interrupted, chunk) == Wake(peer.id, peer.version, before, State(), chunk);
      match KindOf(header[0])
      case PUTCHUNK => SendStored(chunk);
      case GETCHUNK => SendChunk(chunk);
      case REMOVED => SendRescue(chunk);
    }

    /** PUTCHUNK after the wait: the header becomes STORED and goes out on the control channel. */
    method SendStored(chunk: Result<seq<Byte>>)
      requires Sleeping(State()) && KindOf(header[0]) == PUTCHUNK
      modifies this, header, peer
      ensures Config(peer.State(), State()) == Wake(peer.id, peer.version, old(peer.State()), old(State()), chunk)
    {
      ghost var received := header[..];
      header[0], header[1], header[2] := "STORED", peer.version, peer.id;
      assert header[..] == Reply("STORED", peer.version, peer.id, received);
      peer.outbox := peer.outbox + [Message(MC, header[..], None)];
      phase := Finished(Handled);
    }

    /** GETCHUNK after the wait: CHUNK goes out on the restore channel only if the mark survived. */
    method SendChunk(chunk: Result<seq<Byte>>)
      requires Sleeping(State()) && KindOf(header[0]) == GETCHUNK
      modifies this, header, peer, peer.restore
      ensures Config(peer.State(), State()) == Wake(peer.id, peer.version, old(peer.State()), old(State()), chunk)
    {
      var fileId := header[3];
      var marked := peer.restore.CheckAndUnMarkChunk(fileId, chunkNo);
      if marked {
        ghost var received := header[..];
        header[0], header[1], header[2] := "CHUNK", peer.version, peer.id;
        assert header[..] == Reply("CHUNK", peer.version, peer.id, received);
        peer.storageLog := peer.storageLog + [GetChunk(fileId, chunkNo)];
        match chunk
        case Err(e) =>
          phase := Finished(Caught(e));
        case Ok(payload) =>
          peer.outbox := peer.outbox + [Message(MDR, header[..], Some(payload))];
          phase := Finished(Handled);
      } else {
        phase := Finished(Handled);
      }
    }

    /** REMOVED after the wait: the rescue PUTCHUNK goes out on the backup channel only if the flag survived. */
    method SendRescue(chunk: Result<seq<Byte>>)
      requires Sleeping(State()) && KindOf(header[0]) == REMOVED
      modifies this, peer
      ensures Config(peer.State(), State()) == Wake(peer.id, peer.version, old(peer.State()), old(State()), chunk)
    {
      var fileId := header[3];
      var key := ChunkKey(fileId, chunkNo);
      var flagged := key in peer.rescueFlags;
      peer.rescueFlags := peer.rescueFlags - {key};
      if flagged {
        var record := saved.value;
        var rescue := Backup.PutchunkHeader(peer.version, peer.id, fileId, chunkNo, record.replicationDegree);
        match record.payload
        case Err(e) =>
          phase := Finished(Caught(e));
        case Ok(payload) =>
          peer.outbox := peer.outbox + [Message(MDB, rescue, Some(payload))];
          phase := Finished(Handled);
      } else {
        phase := Finished(Handled);
      }
    }
  }
}
