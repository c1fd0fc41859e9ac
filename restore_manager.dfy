/**
 * `RestoreManager`: the process-wide coordination cache, a set of
 * "pending response" flags and a map of restore slots, both keyed by
 * `fileId + chunkNo`. Each operation touches one key of one map.
 */
module Restore {
  import opened Common
  import opened Numbers

  /** The slots after `replace(key, Optional.of(body))`: changed only when the slot exists and the body is not null. */
  function Replace(slots: map<string, Option<seq<Byte>>>, key: string, body: Option<seq<Byte>>): (r: map<string, Option<seq<Byte>>>)
    ensures r.Keys == slots.Keys
    ensures forall k :: k in slots && k != key ==> r[k] == slots[k]
    ensures key in slots ==> r[key] == if body.Some? then body else slots[key]
  {
    if key in slots && body.Some? then slots[key := body] else slots
  }

  class RestoreManager {
    /** The keys present in `flagMap` (its values carry no information). */
    var flags: set<string>
    /** `chunkMap`: a requested chunk's slot, empty until its payload arrives. */
    var slots: map<string, Option<seq<Byte>>>

    constructor ()
      ensures flags == {} && slots == map[]
    {
      flags := {};
      slots := map[];
    }

    /** `markChunk`: insert-if-absent, so marking a marked chunk changes nothing. */
    method MarkChunk(fileId: string, chunkNo: int)
      modifies this
      ensures flags == old(flags) + {ChunkKey(fileId, chunkNo)}
      ensures slots == old(slots)
    {
      flags := flags + {ChunkKey(fileId, chunkNo)};
    }

    /** `checkAndUnMarkChunk`: reports whether the chunk was marked, and unmarks it. */
    method CheckAndUnMarkChunk(fileId: string, chunkNo: int) returns (wasMarked: bool)
      modifies this
      ensures wasMarked <==> ChunkKey(fileId, chunkNo) in old(flags)
      ensures flags == old(flags) - {ChunkKey(fileId, chunkNo)}
      ensures slots == old(slots)
    {
      var key := ChunkKey(fileId, chunkNo);
      wasMarked := key in flags;
      flags := flags - {key};
    }

    /** `unMarkChunk`: removes the mark; nothing happens when there is none. */
    method UnMarkChunk(fileId: string, chunkNo: int)
      modifies this
      ensures flags == old(flags) - {ChunkKey(fileId, chunkNo)}
      ensures slots == old(slots)
    {
      flags := flags - {ChunkKey(fileId, chunkNo)};
    }

    /** `addChunk`: opens an empty slot, discarding anything already received for that chunk. */
    method AddChunk(fileId: string, chunkNo: int)
      modifies this
      ensures slots == old(slots)[ChunkKey(fileId, chunkNo) := None]
      ensures flags == old(flags)
    {
      slots := slots[ChunkKey(fileId, chunkNo) := None];
    }

    /**
     * `putChunk`: `replace` fills a slot only when one was opened; a null
     * body makes `Optional.of` throw, which is swallowed, so the map is
     * left as it was.
     */
    method PutChunk(fileId: string, chunkNo: int, body: Option<seq<Byte>>)
      modifies this
      ensures slots == Replace(old(slots), ChunkKey(fileId, chunkNo), body)
      ensures flags == old(flags)
    {
      var key := ChunkKey(fileId, chunkNo);
      if body.Some? && key in slots {
        slots := slots[key := body];
      }
    }

    /**
     * `retrieveChunk`: removes the slot and returns its content (None for a
     * slot still empty, which Java returns as null); without a slot
     * `remove` gives null and `orElse` throws a NullPointerException.
     */
    method RetrieveChunk(fileId: string, chunkNo: int) returns (r: Result<Option<seq<Byte>>>)
      modifies this
      ensures var key := ChunkKey(fileId, chunkNo);
        && (key in old(slots) ==> r == Ok(old(slots)[key]))
        && (key !in old(slots) ==> r == Err(NullPointer))
        && slots == old(slots) - {key}
      ensures flags == old(flags)
    {
      var key := ChunkKey(fileId, chunkNo);
      if key in slots {
        r := Ok(slots[key]);
        slots := slots - {key};
      } else {
        r := Err(NullPointer);
      }
    }
  }

  /**
   * A chunk's mark is consumed by the first check: checking twice in a row
   * answers false the second time, whatever the first answer was.
   */
  method CheckTwice(cache: RestoreManager, fileId: string, chunkNo: int) returns (first: bool, second: bool)
    modifies cache
    ensures first <==> ChunkKey(fileId, chunkNo) in old(cache.flags)
    ensures !second
    ensures cache.flags == old(cache.flags) - {ChunkKey(fileId, chunkNo)}
  {
    first := cache.CheckAndUnMarkChunk(fileId, chunkNo);
    second := cache.CheckAndUnMarkChunk(fileId, chunkNo);
  }

  /**
   * The restore hand-off as the requester sees it: a slot is opened, the
   * payload arrives, and retrieving the slot yields exactly that payload
   * and closes the slot; the flag set is never touched.
   */
  method RequestDeliverRetrieve(cache: RestoreManager, fileId: string, chunkNo: int, payload: seq<Byte>)
    returns (r: Result<Option<seq<Byte>>>)
    modifies cache
    ensures r == Ok(Some(payload))
    ensures cache.slots == old(cache.slots) - {ChunkKey(fileId, chunkNo)}
    ensures cache.flags == old(cache.flags)
  {
    cache.AddChunk(fileId, chunkNo);
    cache.PutChunk(fileId, chunkNo, Some(payload));
    r := cache.RetrieveChunk(fileId, chunkNo);
  }
}
