/**
 * The per-instance in-memory session store (src/store/memory.ts), the default
 * store of the Koa and Express routers.
 */
module Memory {
  import opened Wrappers
  import opened Meta

  class MemoryStore {
    /** The private `Map<string, ChunkMeta>` of this instance. */
    var entries: map<string, ChunkMeta>

    constructor ()
      ensures entries == map[]
      ensures forall id :: !Exist(id)
    {
      entries := map[];
    }

    function Get(uuid: string): (r: Option<ChunkMeta>)
      reads this
      ensures r.Some? <==> uuid in entries
      ensures r.Some? ==> r.value == entries[uuid]
    {
      if uuid in entries then Some(entries[uuid]) else None
    }

    method Set(uuid: string, meta: ChunkMeta)
      modifies this
      ensures entries == old(entries)[uuid := meta]
      ensures Get(uuid) == Some(meta)
      ensures forall other :: other != uuid ==> Get(other) == old(Get(other))
    {
      entries := entries[uuid := meta];
    }

    method Delete(uuid: string) returns (removed: bool)
      modifies this
      ensures removed <==> uuid in old(entries)
      ensures entries == old(entries) - {uuid}
      ensures Get(uuid) == None && !Exist(uuid)
    {
      removed := uuid in entries;
      entries := entries - {uuid};
    }

    /** Whether the id names a session: its stored value passes the shape check, which for whole records is key membership. */
    function Exist(uuid: string): (r: bool)
      reads this
      ensures r <==> uuid in entries
    {
      IsChunkMeta(AsValue(Get(uuid)))
    }
  }

  /** Two stores never see each other's entries. */
  method SeparateInstances(uuid: string, meta: ChunkMeta) returns (inA: bool, inB: bool)
    ensures inA && !inB
  {
    var a := new MemoryStore();
    var b := new MemoryStore();
    a.Set(uuid, meta);
    inA := a.Exist(uuid);
    inB := b.Exist(uuid);
  }
}
