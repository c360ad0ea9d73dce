/**
 * The legacy serial-only Express router (src/express.ts) over the shared module store.
 * Start always resets the session; any index other than the counter is 'invalid idx'.
 */
module LegacyRouter {
  import opened Wrappers
  import opened Meta
  import opened SharedStore
  import opened Chunks
  import opened Protocol

  /** The inline idx checks of the upload route; `None` lets the chunk through. */
  function IdxCheck(idx: Option<int>, meta: ChunkMeta): (r: Option<ErrKind>)
    ensures r == Some(OutRange) <==> idx.Some? && !IdxInRange(idx, meta.total)
    ensures r == Some(InvalidIdx) <==> idx.None? || (IdxInRange(idx, meta.total) && idx.value != meta.cur)
    ensures r.None? <==> IdxInRange(idx, meta.total) && idx.value == meta.cur
  {
    if idx.None? then Some(InvalidIdx)
    else if idx.value > meta.total || idx.value < 0 then Some(OutRange)
    else if idx.value != meta.cur then Some(InvalidIdx)
    else None
  }

  class LegacyRouter {
    /** The one process-wide store; every legacy router shares it. */
    const store: SharedMemoryStore
    const chunks: ChunkFolder
    const assets: AssetFolder

    ghost predicate Valid()
      reads this, store
    {
      AllWellFormed(store.entries)
    }

    constructor (store: SharedMemoryStore, chunks: ChunkFolder, assets: AssetFolder)
      ensures this.store == store && this.chunks == chunks && this.assets == assets
      ensures Valid() <==> AllWellFormed(store.entries)
    {
      this.store := store;
      this.chunks := chunks;
      this.assets := assets;
    }

    /** GET /status/:uuid (the route repeats the guard's checks; they decide the same). */
    method Status(uuid: string) returns (reply: Reply)
      ensures uuid !in store.entries ==> reply == Failure(Unexist)
      ensures uuid in store.entries ==> reply == (if store.entries[uuid].done then Done else Pending(None))
    {
      var g := MetaGuard(store.Exist(uuid), store.Get(uuid));
      if g.Reject? {
        reply := Failure(g.err);
        return;
      }
      reply := if g.value.done then Done else Pending(None);
    }

    /** POST /upload_start: always a fresh session at 0, whatever was stored before. */
    method UploadStart(uuid: Option<string>, total: Option<int>, filename: Option<string>) returns (reply: Reply)
      modifies store
      ensures old(Valid()) ==> Valid()
      ensures uuid.None? || total.None? || filename.None? ==>
        reply == LackOfFields && store.entries == old(store.entries)
      ensures uuid.Some? && total.Some? && filename.Some? ==>
        reply == Start(0) && store.entries == old(store.entries)[uuid.value := Fresh(0, total.value, filename.value)]
    {
      var fields := ["uuid", "total", "filename"];
      if MissingField(Defined(uuid.Some?, total.Some?, filename.Some?), fields) {
        reply := LackOfFields;
        return;
      }
      assert fields[0] == "uuid" && fields[1] == "total" && fields[2] == "filename";
      store.Set(uuid.value, Fresh(0, total.value, filename.value));
      reply := Start(0);
    }

    /**
     * POST /upload/:uuid/:idx. The chunk is written under the counter. In the pending
     * case the source does not call `store.set`, but it has incremented the very object
     * the store holds, so the stored counter moves all the same.
     */
    method Upload(uuid: string, idx: Option<int>, payload: Option<Bytes>) returns (reply: Reply)
      modifies store, chunks
      ensures old(Valid()) ==> Valid()
      ensures reply != Failure(Conflict)
      ensures store.entries.Keys == old(store.entries).Keys
      ensures forall id :: id in old(store.entries) ==> store.entries[id].cur >= old(store.entries)[id].cur
      ensures uuid !in old(store.entries) ==> reply == Failure(Unexist) && unchanged(store, chunks)
      ensures uuid in old(store.entries) ==>
        var meta := old(store.entries)[uuid];
        var e := IdxCheck(idx, meta);
        && (e.Some? ==> reply == Failure(e.value) && unchanged(store, chunks))
        && (e.None? && meta.done ==> reply == Done && unchanged(store, chunks))
        && (e.None? && !meta.done ==>
              && chunks.blobs == (if payload.Some? then old(chunks.blobs)[(uuid, meta.cur) := payload.value]
                                  else old(chunks.blobs))
              && store.entries == old(store.entries)[uuid := Advance(meta)]
              && reply == ProgressReply(Advance(meta), true))
    {
      var g := MetaGuard(store.Exist(uuid), store.Get(uuid));
      if g.Reject? {
        reply := Failure(g.err);
        return;
      }
      var meta := g.value;
      var e := IdxCheck(idx, meta);
      if e.Some? {
        reply := Failure(e.value);
        return;
      }
      if meta.done {
        reply := Done;
        return;
      }
      if payload.Some? {
        chunks.Write(uuid, meta.cur, payload.value);
      }
      var next := Advance(meta);
      store.Set(uuid, next);
      reply := ProgressReply(next, true);
    }

    /** POST /upload_end */
    method UploadEnd(uuid: Option<string>) returns (reply: Reply)
      modifies chunks, assets
      ensures uuid.None? ==> reply == LackOfFields && unchanged(chunks, assets)
      ensures uuid.Some? && uuid.value !in store.entries ==>
        reply == Failure(Unexist) && unchanged(chunks, assets)
      ensures uuid.Some? && uuid.value in store.entries ==>
        var id := uuid.value;
        var meta := store.entries[id];
        if !AllPresent(old(chunks.blobs), id, meta.total) then
          reply == Failure(Incomplete) && unchanged(chunks, assets)
        else
          && reply == Complete
          && assets.files == old(assets.files)[meta.filename := Assembled(old(chunks.blobs), id, meta.total)]
          && chunks.blobs == Cleared(old(chunks.blobs), id, meta.total)
    {
      if MissingField(Defined(uuid.Some?, true, true), ["uuid"]) {
        reply := LackOfFields;
        return;
      }
      var id := uuid.value;
      var g := MetaGuard(store.Exist(id), store.Get(id));
      if g.Reject? {
        reply := Failure(g.err);
        return;
      }
      var meta := g.value;
      var ok := ValidateChunks(chunks, id, meta);
      if !ok {
        reply := Failure(Incomplete);
        return;
      }
      var data := ConcatChunks(chunks, id, meta);
      assert data.Some?;
      assets.Write(meta.filename, data.value);
      ClearChunks(chunks, id, meta);
      reply := Complete;
    }

    /** POST /upload_abort: delete, clear and answer 'aborted' whatever `delete` returned. */
    method UploadAbort(uuid: Option<string>) returns (reply: Reply)
      modifies store, chunks
      ensures old(Valid()) ==> Valid()
      ensures uuid.None? ==> reply == LackOfFields && unchanged(store, chunks)
      ensures uuid.Some? && uuid.value !in old(store.entries) ==>
        reply == Failure(Unexist) && unchanged(store, chunks)
      ensures uuid.Some? && uuid.value in old(store.entries) ==>
        && reply == Aborted
        && store.entries == old(store.entries) - {uuid.value}
        && chunks.blobs == Cleared(old(chunks.blobs), uuid.value, old(store.entries)[uuid.value].total)
    {
      if MissingField(Defined(uuid.Some?, true, true), ["uuid"]) {
        reply := LackOfFields;
        return;
      }
      var id := uuid.value;
      var g := MetaGuard(store.Exist(id), store.Get(id));
      if g.Reject? {
        reply := Failure(g.err);
        return;
      }
      var meta := g.value;
      var _ := store.Delete(id);
      ClearChunks(chunks, id, meta);
      reply := Aborted;
    }
  }

  /** The legacy router does not resume: a second start answers index 0, and only the chunk at the counter is taken. */
  method NoResume() returns (first: Reply, restarted: Reply, early: Reply, accepted: Reply)
    ensures first == Pending(Some(1))
    ensures restarted == Start(0)
    ensures early == Failure(InvalidIdx)
    ensures accepted == Pending(Some(1))
  {
    var store := new SharedMemoryStore();
    var chunks := new ChunkFolder();
    var assets := new AssetFolder();
    var r := new LegacyRouter(store, chunks, assets);
    var a := r.UploadStart(Some("foo"), Some(3), Some("foo.txt"));
    first := r.Upload("foo", Some(0), Some([1]));
    restarted := r.UploadStart(Some("foo"), Some(3), Some("foo.txt"));
    early := r.Upload("foo", Some(1), Some([2]));
    accepted := r.Upload("foo", Some(0), Some([1]));
  }

  /** Two legacy routers see one session: started through one, it is known to the other. */
  method SharedAcrossRouters() returns (seen: Reply, after: Reply)
    ensures seen == Pending(None)
    ensures after == Failure(Unexist)
  {
    var store := new SharedMemoryStore();
    var chunks := new ChunkFolder();
    var assets := new AssetFolder();
    var a := new LegacyRouter(store, chunks, assets);
    var b := new LegacyRouter(store, chunks, assets);
    var r := a.UploadStart(Some("foo"), Some(2), Some("foo.txt"));
    seen := b.Status("foo");
    r := b.UploadAbort(Some("foo"));
    after := a.Status("foo");
  }
}
