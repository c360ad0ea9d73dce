/**
 * The module-level store object of src/memoryStore.ts. The source keeps one `Map`
 * per process; here it is one object that every legacy router is given, so all
 * of them read and write the same entries.
 */
module SharedStore {
  import opened Wrappers
  import opened Meta

  /** The module-singleton variant of `Memory.MemoryStore`: the same operations, over one map shared by every user. */
  class SharedMemoryStore {
    var entries: map<string, ChunkMeta>

    constructor ()
      ensures entries == map[]
    {
      entries := map[];
    }

    function Get(uuid: string): (r: Option<ChunkMeta>)
      reads this
      ensures r.Some? <==> uuid in entries
      ensures r.Some? ==> r.value == entries[uuid]
    {
      if uuid in entries then Some(entries[uuid]) else None
    }

    method Set(uuid: string, meta: ChunkMeta)
      modifies this
      ensures entries == old(entries)[uuid := meta]
      ensures Get(uuid) == Some(meta)
      ensures forall other :: other != uuid ==> Get(other) == old(Get(other))
    {
      entries := entries[uuid := meta];
    }

    method Delete(uuid: string) returns (removed: bool)
      modifies this
      ensures removed <==> uuid in old(entries)
      ensures entries == old(entries) - {uuid}
      ensures Get(uuid) == None && !Exist(uuid)
    {
      removed := uuid in entries;
      entries := entries - {uuid};
    }

    /** Whether the id names a session, by the same shape check as `Meta.IsChunkMeta`. */
    function Exist(uuid: string): (r: bool)
      reads this
      ensures r <==> uuid in entries
    {
      IsChunkMeta(AsValue(Get(uuid)))
    }
  }
}
