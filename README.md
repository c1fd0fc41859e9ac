# Multicast chunk-backup peer: a Dafny model of its core

The models cover the core of a peer in a multicast chunk-backup system. Peers share files as 64000-byte chunks over three multicast channels:
- MC, the control channel;
- MDB, the data-backup channel;
- MDR, the data-restore channel.

These parts of the peer are modelled:

- **Wire framing** (`wire.dfy`, module `Wire`):
  - `sendMessage` builds a message as the header fields joined by single spaces, then CR LF CR LF, then an optional raw body.
  - `receiveMessage` truncates a datagram to its 64064-byte buffer and splits it at the first CR LF CR LF. It splits the header part on runs of spaces.
  - The model works on octets. Its round-trip lemmas recover a header made of plain fields, together with any body.
- **Chunk splitter** (`chunking.dfy`, module `Chunking`):
  - `fileToChunks` allocates `length / 64000 + 1` zero-filled rows of 64000 bytes and fills them in order.
  - The model proves the shape of the result, reassembly, and the zero padding.
- **Coordination cache** (`restore_manager.dfy`, module `Restore`):
  - `RestoreManager` holds a set of "pending response" flags and a map of restore slots. Both are keyed by `fileId + chunkNo`.
  - It is a class whose methods state the whole new state.
- **Message dispatch** (`multicast_worker.dfy`, module `Dispatch`):
  - `MulticastWorker.run` derives the chunk number and switches on the message type.
  - It builds replies by overwriting the received header in place. It keeps the collision-avoidance flags for GETCHUNK (restore marks) and REMOVED (rescue flags).
  - Each run is split at its random sleep into `BeginStep` and `EndStep`. These are pure functions on a `PeerState` value. The `Peer` and `Worker` classes (`Worker.Begin`, `Worker.End`) are proved equal to those functions. Dispatch is therefore written twice on purpose: the classes follow the code's in-place updates (the header array overwritten, the shared maps changed), and the functions are the specification they are proved against and that the scenario lemmas reason about.
  - Between a run's two steps, any other message may be handled. `interleavings.dfy` (module `Interleavings`) proves what the peers send for the interleavings that matter. For example, of two holders that race to answer one GETCHUNK, only the first answers.
- **Backup retry loop** (`backup_worker.dfy`, module `Backup`):
  - `BackupWorker.call` sends PUTCHUNK up to five times. The wait before each check doubles from 1000 ms.
  - The loop stops at the first check where the replication has reached the degree. The replication observed at each check is an input, and so are the interrupts.
- **Chunk replication record** (`chunk_info.dfy`, module `ChunkRecord`):
  - `ChunkInfo` keeps a stored chunk as two files: the body, and the "necessary replication" counter. The model holds them as fields.
  - `incReplication` lowers the counter, with Java `int` wrap-around.
- **Shared vocabulary**:
  - `common.dfy` holds octets, `Option`, `Result`, Java exceptions as values, channels and messages.
  - `numbers.dfy` holds Java's `String.valueOf(int)` and `Integer.parseInt`, and the chunk key `fileId + chunkNo`.

The storage manager's chunk operations are called by the worker but are not part of the source shown: `storeChunk`, `signalStoreChunk`, `hasChunk`, `getChunk`, `deleteChunks`, `signalRemoveChunk` and `getChunkReplication`. The model does not give them any semantics. Each call the worker makes is appended to a `storageLog` as a `StorageCall` value. The call's answer is a parameter of the step that makes the call (`StorageAnswers`, plus the `chunk` argument of `EndStep`).

Where the code differs from the protocol as usually described, the model follows the code:
- A received STORED only signals the storage manager. It clears no flag.
- A peer waiting to send STORED does not hold back when it overhears another peer's STORED for the same chunk.
- A malformed header is not discarded quietly. An unparsable chunk number or degree throws a `NumberFormatException`, and a header shorter than the case expects throws an `ArrayIndexOutOfBoundsException`. Neither is caught, so both escape `run`. The model marks them `Escaped`.
- Only `IOException` and `InterruptedException` are caught and discard the message. The model marks them `Discarded`.
- `ChunkInfo` has no `getReplicationDegree`, although the REMOVED case calls it. The model takes the degree from the record the storage manager returns (`SavedChunk.replicationDegree`).
- `receiveMessage` returns `String[][]`, but the worker's constructor takes a header and a `byte[]`. The model keeps the framing on octets and the dispatch on strings. A decoded message is a header plus an optional body.
- A header-only message still carries its terminator. It is therefore received with an empty body, not an absent one (`Wire.HeaderOnlyRoundTrip`).

## Model

| member | source | states |
|---|---|---|
| Numbers.DecimalString | src/peer/BackupWorker.java:43-44 | `String.valueOf(int)` is non-empty, all digits for `n >= 0`, and a minus sign then digits for `n < 0` |
| Numbers.ParseInt | src/multicast/MulticastWorker.java:33 | `Integer.parseInt` succeeds only on an optional sign followed by at least one digit and nothing but digits, and only with a value in the `int` range; None stands for the NumberFormatException |
| Numbers.NatStringValue | src/peer/BackupWorker.java:43-44 | the digits of a natural number have that number as their value |
| Numbers.ParseUnsigned | src/multicast/MulticastWorker.java:33 | a run of digits without a sign parses to its value when that value is an `int` |
| Numbers.ParseNegative | src/multicast/MulticastWorker.java:33 | a minus sign followed by digits parses to the negated value when that value is an `int` |
| Numbers.ParsePositive | src/multicast/MulticastWorker.java:33 | a plus sign followed by digits parses to the digits' value when that value is an `int` |
| Numbers.ParseDecimal | src/multicast/MulticastWorker.java:82-84 | `parseInt(String.valueOf(n)) == n` for every Java `int`, so a chunk number or degree survives a trip through a header |
| Numbers.ParseIntRange | src/multicast/MulticastWorker.java:33 | a run of digits parses exactly when its value is at most 2147483647, and then to that value; a larger value is a NumberFormatException |
| Numbers.ParseDecimalTotal | src/multicast/MulticastWorker.java:33 | the decimal text of any integer parses back to it when it is a Java `int`, and is a NumberFormatException when it is not |
| Numbers.DecimalStringInjective | src/peer/BackupWorker.java:43-44 | two `int`s have the same decimal rendering exactly when they are equal |
| Numbers.ChunkKey | src/storage/RestoreManager.java:24-26 | the key `fileId + chunkNo` is the file id followed by the chunk number's decimal digits |
| Numbers.ChunkKeyInjective | src/storage/RestoreManager.java:24-26 | for file ids of one length, two chunks share a key exactly when they have the same file id and chunk number |
| Numbers.ChunkKeyAmbiguousAcrossIdLengths | src/storage/RestoreManager.java:24-26 | with file ids of different lengths the key is ambiguous: chunk 2 of "a1" and chunk 12 of "a" share a key |
| Wire.HeaderBytes | src/multicast/MulticastInterface.java:29 | a header-only message is the joined fields, 4 bytes longer, and ends in CR LF CR LF |
| Wire.FrameWithBody | src/multicast/MulticastInterface.java:40-45 | the array built by the two array copies has length header part plus body, and holds the header part followed by the body verbatim |
| Wire.FindTerminator | src/multicast/MulticastInterface.java:69 | finds the first CR LF CR LF at or after a position, or reports that there is none |
| Wire.IndexOfSpace | src/multicast/MulticastInterface.java:74 | finds the first space at or after a position, or reports that there is none |
| Wire.SkipSpaces | src/multicast/MulticastInterface.java:74 | finds the end of a run of spaces |
| Wire.SpaceRuns | src/multicast/MulticastInterface.java:74 | the pieces between runs of spaces contain no space, and every inner piece is non-empty (which pieces they are: `Wire.SpaceRunsOfJoinRuns`) |
| Wire.StripTrailingEmpty | src/multicast/MulticastInterface.java:74 | drops exactly the trailing empty pieces and keeps the rest in order |
| Wire.SplitSpaces | src/multicast/MulticastInterface.java:74 | `split(" +")`: no field contains a space, only the first field may be empty, and input without a space comes back whole (which fields they are: `Wire.SplitSpacesOfJoinRuns`) |
| Wire.Decode | src/multicast/MulticastInterface.java:69-75 | the body is absent exactly when there is no terminator, and then the whole message is header; otherwise the body is everything after the FIRST terminator and the header is what precedes it, split on spaces |
| Wire.ReceiveMessage | src/multicast/MulticastInterface.java:56-77 | a datagram is decoded after truncation to 64064 bytes, so a received body is at most 64060 bytes long |
| Wire.JoinContents | src/multicast/MulticastInterface.java:29 | every byte of the joined header is a separating space or comes from one of the fields |
| Wire.Join | src/multicast/MulticastInterface.java:29 | `String.join(" ", fields)`: starts with the first field, and is as long as the fields together plus one separator between each two (same join at line 41) |
| Wire.JoinHasNoCR | src/multicast/MulticastInterface.java:29 | joining fields that contain no CR gives bytes with no CR |
| Wire.FirstSpace | src/multicast/MulticastInterface.java:74 | the first space is at `p` when `s[p]` is a space and none comes before it |
| Wire.RunEnd | src/multicast/MulticastInterface.java:74 | a run of spaces ends at the first byte that is not a space |
| Wire.SplitAtRun | src/multicast/MulticastInterface.java:74 | in a space-free field, a run of one or more spaces and a rest that does not start with a space, the split ends the field at the run and resumes at the rest |
| Wire.FirstOfJoinRuns | src/multicast/MulticastInterface.java:74 | fields separated by runs of spaces start with the first field's first byte |
| Wire.SpaceRunsOfJoinRuns | src/multicast/MulticastInterface.java:74 | the pieces between runs of spaces, for non-empty, space-free fields separated by runs of ANY length of at least one, are exactly those fields, in order |
| Wire.SplitSpacesOfJoinRuns | src/multicast/MulticastInterface.java:74 | `split(" +")` gives back non-empty, space-free fields separated by runs of one or more spaces |
| Wire.RunToEnd | src/multicast/MulticastInterface.java:74 | a run of spaces that reaches the end of the input ends there |
| Wire.SpaceRunsLeading | src/multicast/MulticastInterface.java:74 | a run of spaces in front of the input gives a leading empty piece |
| Wire.SpaceRunsStep | src/multicast/MulticastInterface.java:74 | a space-free field, a run of spaces and a rest starting with no space split into the field followed by the pieces of the rest |
| Wire.UnfoldJoinRunsThenSpaces | src/multicast/MulticastInterface.java:74 | fields joined by runs and followed by spaces are the first field, its run, and the remaining fields joined and followed by the same spaces |
| Wire.FieldThenSpaces | src/multicast/MulticastInterface.java:74 | a field followed by one or more spaces splits into the field and a trailing empty piece |
| Wire.SpaceRunsOfJoinRunsThenSpaces | src/multicast/MulticastInterface.java:74 | fields joined by runs and followed by one or more spaces split into the fields and one trailing empty piece |
| Wire.StripOneTrailingEmpty | src/multicast/MulticastInterface.java:74 | limit 0 drops a single trailing empty piece after a non-empty one, and leaves pieces ending in a non-empty one unchanged |
| Wire.LeadingEmptySurvives | src/multicast/MulticastInterface.java:74 | limit 0 keeps a leading empty piece when the pieces after it do not strip to nothing |
| Wire.SplitSpacesOfSpaced | src/multicast/MulticastInterface.java:74 | on any non-empty input `split(" +")` is the pieces between runs of spaces with trailing empty pieces removed |
| Wire.SpaceRunsOfTrailing | src/multicast/MulticastInterface.java:74 | trailing spaces after fields joined by runs leave no field once trailing empty pieces are removed |
| Wire.SplitSpacesOfPaddedJoinRuns | src/multicast/MulticastInterface.java:74 | `split(" +")` of fields joined by runs, with spaces before and after, gives a leading empty field exactly when spaces come first, then the fields; trailing spaces give nothing (`" A B "` gives `["", "A", "B"]`) |
| Wire.JoinIsJoinRuns | src/multicast/MulticastInterface.java:29 | `String.join(" ", ...)` separates the fields by runs of exactly one space |
| Wire.SplitSpacesOfJoin | src/multicast/MulticastInterface.java:74 | `split(" +")` undoes `String.join(" ", ...)` on non-empty, space-free fields |
| Wire.RoundTrip | src/multicast/MulticastInterface.java:69-75 | decoding a header of non-empty fields without space or CR, followed by any body (even one containing CR LF CR LF), gives back that header and body |
| Wire.HeaderOnlyRoundTrip | src/multicast/MulticastInterface.java:28-29 | a header-only send that fits the buffer is received with the same fields and an empty body |
| Wire.ReceiveRoundTrip | src/multicast/MulticastInterface.java:56-77 | a message with a body that fits the buffer is received exactly as sent |
| Wire.FailedReceive | src/multicast/MulticastInterface.java:59-65 | after a failed socket read the worker gets one header field of 64064 zero bytes and no body |
| Chunking.FileToChunks | src/storage/StorageManager.java:10-20 | the 2-D array has `length / 64000 + 1` rows of 64000 bytes, each byte that of the file at its offset or zero past the end |
| Chunking.ConcatAt | src/storage/StorageManager.java:14-17 | byte `r * 64000 + j` of the concatenated chunks is byte `j` of chunk `r` |
| Chunking.ConcatLength | src/storage/StorageManager.java:14 | the concatenated chunks are 64000 bytes per chunk |
| Chunking.ChunksShape | src/storage/StorageManager.java:14 | the chunk count is `length / 64000 + 1` and every chunk is 64000 bytes, so an empty file gives one chunk and an exact multiple of 64000 gives one extra |
| Chunking.Chunks | src/storage/StorageManager.java:14-19 | the value `fileToChunks` returns: `length / 64000 + 1` chunks of 64000 bytes, byte `i` of the file at position `i % 64000` of chunk `i / 64000` |
| Chunking.ChunkPositions | src/storage/StorageManager.java:14-19 | rows of padded file bytes hold byte `i` of the file at row `i / 64000`, column `i % 64000` |
| Chunking.ConcatChunksAt | src/storage/StorageManager.java:14-17 | byte `i` of the concatenated chunks is byte `i` of the file, or zero past its end |
| Chunking.Reassemble | src/storage/StorageManager.java:16-17 | the first `length` bytes of the chunks in order are the file |
| Chunking.PaddingIsZero | src/storage/StorageManager.java:14-17 | every byte past the end of the file is zero |
| Chunking.PaddingBounds | src/storage/StorageManager.java:14 | the chunks hold between 1 and 64000 bytes more than the file |
| Chunking.ExactMultipleGetsEmptyChunk | src/storage/StorageManager.java:14 | when the length is a multiple of 64000, the last chunk is all zeros |
| Restore.Replace | src/storage/RestoreManager.java:69-74 | `replace` keeps the key set, changes only the given key, and changes it only when the slot exists and the body is not null |
| Restore.RestoreManager.constructor | src/storage/RestoreManager.java:15-16 | both maps start empty |
| Restore.RestoreManager.MarkChunk | src/storage/RestoreManager.java:24-26 | insert-if-absent: the flags gain exactly the key (unchanged if it was there), and the slots are untouched |
| Restore.RestoreManager.CheckAndUnMarkChunk | src/storage/RestoreManager.java:36-38 | answers true exactly when the key was marked, and removes it; the slots are untouched |
| Restore.RestoreManager.UnMarkChunk | src/storage/RestoreManager.java:46-48 | the flags lose exactly the key (a no-op when it is absent), and the slots are untouched |
| Restore.RestoreManager.AddChunk | src/storage/RestoreManager.java:57-59 | the slot is set to empty, overwriting anything received; the flags are untouched |
| Restore.RestoreManager.PutChunk | src/storage/RestoreManager.java:69-74 | the slots become `Replace(slots, key, body)`, so only an existing slot is filled and a null body changes nothing; the flags are untouched |
| Restore.RestoreManager.RetrieveChunk | src/storage/RestoreManager.java:84-86 | returns the slot's content (None for a slot still empty) and removes the slot; without a slot it throws `NullPointerException` |
| Restore.CheckTwice | src/storage/RestoreManager.java:36-38 | a second `checkAndUnMarkChunk` straight after the first answers false |
| Restore.RequestDeliverRetrieve | src/storage/RestoreManager.java:57-86 | add, put, then retrieve yields exactly the payload delivered and closes the slot; the flags are never touched |
| ChunkRecord.ChunkAndInfoPathsDiffer | src/storage/ChunkInfo.java:20-24 | a chunk's body file and info file are different paths |
| ChunkRecord.PathsEndWithChunkNo | src/storage/ChunkInfo.java:20-24 | the chunk file path `./peer<id>/backup/<fileId>/chk<chunkNo>` and the info file path `./peer<id>/info/<fileId>/chk<chunkNo>` both end with the chunk number, which `Integer.parseInt` reads back |
| ChunkRecord.AppendCancel | src/storage/ChunkInfo.java:20 | equal concatenations with equally long first parts have equal parts |
| ChunkRecord.ChunkPathInjective | src/storage/ChunkInfo.java:20 | on one peer, for file ids of one length, two chunks share a body file exactly when they are the same chunk |
| ChunkRecord.Decrement | src/storage/ChunkInfo.java:51 | `necessaryReplication - 1` in `int` arithmetic: one less, except at the minimum, which wraps to the maximum |
| ChunkRecord.ChunkInfo.constructor | src/storage/ChunkInfo.java:19-40 | the paths are built from peer, file id and chunk number; the body file holds the body and the counter starts at the desired degree |
| ChunkRecord.ChunkInfo.IncReplication | src/storage/ChunkInfo.java:42-54 | the counter goes one LOWER, despite the name, with `int` wrap-around; a missing info file is an IOException; the body file is untouched |
| ChunkRecord.ChunkInfo.GetChunk | src/storage/ChunkInfo.java:56-64 | returns the whole body file, or an IOException once it is gone |
| ChunkRecord.ChunkInfo.Delete | src/storage/ChunkInfo.java:66-68 | short-circuit `&&`: the info file is only tried once the body file has gone, and the answer is true exactly when both were deleted |
| ChunkRecord.StoreThenRead | src/storage/ChunkInfo.java:19-64 | a freshly written record reads back exactly its body, with the same length |
| ChunkRecord.CounterAfterAcknowledgements | src/storage/ChunkInfo.java:35-54 | after `n` calls of `incReplication` the counter is `degree - n`, and the degree counts as met exactly when `n >= degree` |
| Backup.Call | src/peer/BackupWorker.java:41-61 | 1 to 5 identical `[PUTCHUNK, version, id, fileId, chunkNo, degree]` messages on MDB; wait `k` is `1000 * 2^k`; success exactly when some check within 5 reaches the degree, and then at the first such check; failure only after 5 messages; an interrupt never cuts the loop short, and every later sleep returns at once |
| Backup.PutchunkHeaderReadsBack | src/peer/BackupWorker.java:43-44 | the PUTCHUNK header has six fields: the type, version, sender and file id as given, and chunk number and degree that `Integer.parseInt` reads back (NumberFormatException outside the `int` range); the rescue at src/multicast/MulticastWorker.java:82-85 sends the same header |
| Backup.Pow2 | src/peer/BackupWorker.java:57 | the factor that `waitTime *= 2` has applied after `k` rounds is at least 1, so every wait is positive |
| Backup.WaitSchedule | src/peer/BackupWorker.java:11-57 | the five waits are 1000, 2000, 4000, 8000 and 16000 ms |
| Dispatch.Label | src/multicast/MulticastWorker.java:35-91 | every case of the switch has one of the six type strings as its label |
| Dispatch.KindOf | src/multicast/MulticastWorker.java:35 | `header[0]` selects a case exactly when it is one of the six type strings, and then it is that case's label |
| Dispatch.KindOfLabel | src/multicast/MulticastWorker.java:35-91 | every label selects its own case, so no two cases share a label |
| Dispatch.Caught | src/multicast/MulticastWorker.java:92-94 | IOException and InterruptedException are caught and discard the message; every other exception escapes `run` |
| Dispatch.ChunkNoOf | src/multicast/MulticastWorker.java:31-33 | the chunk number is 0 when the header has at most four fields, and otherwise `parseInt(header[4])` |
| Dispatch.Reply | src/multicast/MulticastWorker.java:44-46 | the reply is the received header with fields 0 to 2 overwritten and every other field kept |
| Dispatch.BeginStep | src/multicast/MulticastWorker.java:29-91 | `run` up to its sleep keeps the header, sends nothing, makes at most one storage call, and ends in a sleep only in one of the three waiting cases |
| Dispatch.Deliver | src/multicast/MulticastWorker.java:35-91 | the switch keeps the chunk number it was given, sends nothing before the sleep, and makes at most one storage call |
| Dispatch.EndStep | src/multicast/MulticastWorker.java:42-90 | `run` after its sleep finishes, keeps the restore slots, only removes marks and flags, and sends and logs at most one message each |
| Dispatch.Wake | src/multicast/MulticastWorker.java:44-88 | the same bounds for a sleep that lasted its full time |
| Dispatch.UndispatchableChangesNothing | src/multicast/MulticastWorker.java:31-35 | an unparsable chunk number, an unknown type or a header too short for `header[3]` leaves the peer unchanged, with the matching outcome |
| Dispatch.SleepsExactly | src/multicast/MulticastWorker.java:36-79 | a run sleeps exactly for another peer's stored PUTCHUNK, for a GETCHUNK of a held chunk, or for a REMOVED whose record came back |
| Dispatch.PutchunkCancelsRescue | src/multicast/MulticastWorker.java:36-41 | every PUTCHUNK clears the rescue flag, even this peer's own; its own is never stored; a missing or unparsable degree escapes; another peer's PUTCHUNK is stored with its degree |
| Dispatch.StoredOnlySignals | src/multicast/MulticastWorker.java:50-52 | STORED only calls `signalStoreChunk`, and touches no flag, mark or slot |
| Dispatch.GetchunkMarksHeldChunk | src/multicast/MulticastWorker.java:53-55 | GETCHUNK asks `hasChunk`, and marks the chunk exactly when it is held |
| Dispatch.ChunkFillsOpenSlot | src/multicast/MulticastWorker.java:67-72 | CHUNK, and DELETE through its fall-through, clears the mark and fills an open slot with a non-null body, touching no other slot; DELETE also calls `deleteChunks` |
| Dispatch.RemovedFlagsRescue | src/multicast/MulticastWorker.java:73-77 | REMOVED calls `signalRemoveChunk`, and flags a rescue and keeps the record exactly when a record came back |
| Dispatch.InterruptedSleepDiscards | src/multicast/MulticastWorker.java:92-94 | an interrupted sleep discards the message: nothing is sent and nothing changes |
| Dispatch.StoredAcknowledges | src/multicast/MulticastWorker.java:42-47 | after its wait a stored PUTCHUNK sends one STORED on MC, which is the received header with fields 0 to 2 replaced |
| Dispatch.ChunkSentIffMarkSurvives | src/multicast/MulticastWorker.java:57-64 | after its wait CHUNK is sent on MDR exactly when the mark survived and the chunk could be read; the mark is consumed |
| Dispatch.RescueSentIffFlagSurvives | src/multicast/MulticastWorker.java:79-88 | after its wait the rescue PUTCHUNK (own id, the record's degree and body) is sent on MDB exactly when the flag survived and the body could be read |
| Dispatch.Peer.constructor | src/multicast/MulticastWorker.java:14 | a peer starts with no flags, marks, slots, messages or storage calls |
| Dispatch.Worker.constructor | src/multicast/MulticastWorker.java:16-26 | a worker holds a copy of the received header and the body, and waits between 0 and 400 ms |
| Dispatch.Worker.Begin | src/multicast/MulticastWorker.java:29-91 | the objects' new state is `BeginStep` of the old one, and a sleeping worker is valid |
| Dispatch.Worker.OnPutchunk | src/multicast/MulticastWorker.java:36-41 | the PUTCHUNK case changes the objects as `Deliver` says |
| Dispatch.Worker.OnStored | src/multicast/MulticastWorker.java:50-52 | the STORED case changes the objects as `Deliver` says |
| Dispatch.Worker.OnGetchunk | src/multicast/MulticastWorker.java:53-57 | the GETCHUNK case changes the objects as `Deliver` says |
| Dispatch.Worker.OnChunk | src/multicast/MulticastWorker.java:67-72 | the DELETE and CHUNK cases change the objects as `Deliver` says |
| Dispatch.Worker.OnRemoved | src/multicast/MulticastWorker.java:73-79 | the REMOVED case changes the objects as `Deliver` says |
| Dispatch.Worker.End | src/multicast/MulticastWorker.java:42-94 | the objects' new state is `EndStep` of the old one |
| Dispatch.Worker.SendStored | src/multicast/MulticastWorker.java:44-47 | the header is rewritten in place to STORED and sent, as `Wake` says |
| Dispatch.Worker.SendChunk | src/multicast/MulticastWorker.java:59-64 | the mark is checked and consumed, and the rewritten header goes out with the chunk, as `Wake` says |
| Dispatch.Worker.SendRescue | src/multicast/MulticastWorker.java:81-88 | the flag is checked and removed, and the rescue PUTCHUNK goes out, as `Wake` says |
| Interleavings.GetChunkServed | src/multicast/MulticastWorker.java:53-66 | a holder that does not overhear a CHUNK answers GETCHUNK with CHUNK on MDR: the request's header with fields 0 to 2 replaced, plus the chunk |
| Interleavings.GetChunkOvertaken | src/multicast/MulticastWorker.java:53-72 | a holder that overhears a CHUNK for the chunk during its wait stays silent and never reads the chunk |
| Interleavings.GetChunkRace | src/multicast/MulticastWorker.java:53-72 | of two holders that get the same GETCHUNK, the second to wake has seen the first's CHUNK and sends nothing |
| Interleavings.RescueUncontested | src/multicast/MulticastWorker.java:73-90 | a holder that sees REMOVED and is not overtaken re-sends PUTCHUNK with its own id and the record's degree and body |
| Interleavings.RescueOvertaken | src/multicast/MulticastWorker.java:36-90 | a PUTCHUNK for the chunk during the wait after REMOVED, from anyone, cancels the rescue |
| Interleavings.StoreAndAcknowledge | src/multicast/MulticastWorker.java:36-49 | another peer's PUTCHUNK is stored, then acknowledged by STORED with the chunk number and degree fields kept as received |
| Interleavings.BackupIsAcknowledged | src/peer/BackupWorker.java:43-46 | the PUTCHUNK the backup loop sends is stored by another peer and acknowledged with the same numbers |
| Interleavings.DeleteFillsSlotZero | src/multicast/MulticastWorker.java:67-72 | DELETE falls through into CHUNK with chunk number 0, so an open slot for chunk 0 of the file gets the DELETE's body |

## Left out

- Sockets, group joins and datagram send and receive are not modelled. The framing works on the bytes, a message sent is appended to the peer's `outbox`, and what a socket read returns is a parameter.
- Charset conversion (`getBytes`, `new String`) is not modelled. Header fields are ASCII octets in `Wire` and strings in `Dispatch`, and the two are not connected.
- The diagnostic printing (`System.out`, `System.err`, `printStackTrace`) is not modelled, because it is output only.
- `Thread.sleep` and `Random.nextInt(401)` are not modelled as timing. Each sleep splits a run into two steps, and the wait is a constructor parameter bounded by 400. Which run wakes first is fixed by each `Interleavings` lemma.
- Thread pools and `ConcurrentHashMap` atomicity are not modelled. Each step is one atomic transition on the peer's state.
- The storage manager's `storeChunk`, `signalStoreChunk`, `hasChunk`, `getChunk`, `deleteChunks`, `signalRemoveChunk` and `getChunkReplication` are not modelled: `StorageManager.java` does not contain them. The calls are logged and their answers are inputs.
- `Peer` bootstrap, `Service`, `RestoreWorker`, `MulticastThread`, the client and `FileInfo` are not part of this model.
- Chunking.FileToChunks: does not model `Math.toIntExact` failing for files longer than about 2^31 chunks, or a `read` that returns fewer bytes than remain. Each read fills `min(remaining, 64000)` bytes, and the file is an in-memory sequence.
- ChunkRecord.ChunkInfo.constructor: does not model failures of `mkdirs`, `createNewFile` or the writes, so construction always succeeds.
- ChunkRecord.ChunkInfo.IncReplication: the info file holds the number as text (`println`, then `Scanner.nextInt`). The model holds the `int` itself, so a malformed info file is not modelled.
- ChunkRecord.ChunkInfo.GetChunk: does not model `Math.toIntExact` on the file length, or a short read.
- Numbers.ParseInt: accepts ASCII digits only. Java also accepts other Unicode decimal digits.
- Dispatch.Worker.Begin: does not model a null `header[0]`, since `split` never yields null fields.
