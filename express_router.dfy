/**
 * The Express router (src/dnu_express.ts): the same state machine as the Koa router,
 * except that a parallel chunk past the total is refused, and a request whose body is
 * not raw bytes advances the counter without writing a chunk.
 */
module ExpressRouter {
  import opened Wrappers
  import opened Meta
  import opened Memory
  import opened Chunks
  import opened Protocol

  /** `chunkIdxGuard`; passes on whether the chunk is taken as serial. */
  function ChunkIdxGuard(idx: Option<int>, meta: ChunkMeta, mode: string): (r: Guarded<bool>)
    ensures r == Reject(InvalidIdx) <==> idx.None?
    ensures r == Reject(OutRange) <==> idx.Some? && !IdxInRange(idx, meta.total)
    ensures r == Reject(Duplicated) <==> IdxInRange(idx, meta.total) && mode == "serial" && idx.value < meta.cur
    ensures r == Reject(Inaccessible) <==> IdxInRange(idx, meta.total) && mode == "serial" && idx.value > meta.cur
    ensures r == Reject(BeyondLimit) <==> IdxInRange(idx, meta.total) && mode == "parellel" && meta.cur > meta.total
    ensures r == Reject(UnsupportedMode) <==> IdxInRange(idx, meta.total) && mode != "serial" && mode != "parellel"
    ensures r.Pass? ==> IdxInRange(idx, meta.total) && (r.value <==> mode == "serial")
    ensures r.Pass? && r.value ==> idx.value == meta.cur
    ensures r.Pass? && !r.value ==> meta.cur <= meta.total
  {
    if idx.None? then Reject(InvalidIdx)
    else if idx.value > meta.total || idx.value < 0 then Reject(OutRange)
    else if mode == "serial" then
      if idx.value != meta.cur then
        if idx.value < meta.cur then Reject(Duplicated) else Reject(Inaccessible)
      else Pass(true)
    else if mode == "parellel" then
      if meta.cur > meta.total then Reject(BeyondLimit) else Pass(false)
    else Reject(UnsupportedMode)
  }

  class ExpressRouter {
    const store: MemoryStore
    const chunks: ChunkFolder
    const assets: AssetFolder
    const secondPass: bool
    /** The assets of completed uploads, oldest first; `options.onUploaded`, when given, is called with each. */
    var uploaded: seq<string>

    ghost predicate Valid()
      reads this, store
    {
      AllWellFormed(store.entries)
    }

    constructor (store: MemoryStore, chunks: ChunkFolder, assets: AssetFolder, secondPass: bool)
      ensures this.store == store && this.chunks == chunks && this.assets == assets
      ensures this.secondPass == secondPass && uploaded == []
      ensures Valid() <==> AllWellFormed(store.entries)
    {
      this.store := store;
      this.chunks := chunks;
      this.assets := assets;
      this.secondPass := secondPass;
      uploaded := [];
    }

    /** GET /status/:uuid */
    method Status(uuid: string) returns (reply: Reply)
      ensures uuid !in store.entries ==> reply == Failure(Unexist)
      ensures uuid in store.entries ==> reply == (if store.entries[uuid].done then Done else Pending(None))
    {
      var g := MetaGuard(store.Exist(uuid), store.Get(uuid));
      if g.Reject? {
        reply := Failure(g.err);
        return;
      }
      reply := if g.value.done then Done else Pending(None);
    }

    /** POST /upload_start */
    method UploadStart(uuid: Option<string>, total: Option<int>, filename: Option<string>) returns (reply: Reply)
      modifies store
      ensures old(Valid()) ==> Valid()
      ensures uuid.None? || total.None? || filename.None? ==>
        reply == LackOfFields && store.entries == old(store.entries)
      ensures uuid.Some? && total.Some? && filename.Some? ==>
        var id := uuid.value;
        if id in old(store.entries) && secondPass && old(store.entries)[id].done then
          reply == Exist && store.entries == old(store.entries)
        else
          var cur := if id in old(store.entries) then old(store.entries)[id].cur else 0;
          reply == Start(cur) && store.entries == old(store.entries)[id := Fresh(cur, total.value, filename.value)]
    {
      var fields := ["uuid", "total", "filename"];
      if MissingField(Defined(uuid.Some?, total.Some?, filename.Some?), fields) {
        reply := LackOfFields;
        return;
      }
      assert fields[0] == "uuid" && fields[1] == "total" && fields[2] == "filename";
      var id := uuid.value;
      var meta := store.Get(id);
      if meta.Some? {
        if secondPass && meta.value.done {
          reply := Exist;
        } else {
          reply := CreateUploadTask(id, meta.value.cur, total.value, filename.value);
        }
      } else {
        reply := CreateUploadTask(id, 0, total.value, filename.value);
      }
    }

    /** `createUploadTask`: the reply is sent once `store.set` has settled. */
    method CreateUploadTask(uuid: string, cur: int, total: int, filename: string) returns (reply: Reply)
      modifies store
      ensures store.entries == old(store.entries)[uuid := Fresh(cur, total, filename)]
      ensures reply == Start(cur)
    {
      store.Set(uuid, Fresh(cur, total, filename));
      reply := Start(cur);
    }

    /**
     * POST /upload/:uuid/:idx?mode=…; `payload` is `None` when the body parser left
     * something other than a buffer, in which case no chunk file is written.
     */
    method Upload(uuid: string, idx: Option<int>, mode: Option<string>, payload: Option<Bytes>) returns (reply: Reply)
      modifies store, chunks
      ensures old(Valid()) ==> Valid()
      ensures reply != Failure(Conflict)
      ensures store.entries.Keys == old(store.entries).Keys
      ensures forall id :: id in old(store.entries) ==> store.entries[id].cur >= old(store.entries)[id].cur
      ensures uuid !in old(store.entries) ==> reply == Failure(Unexist) && unchanged(store, chunks)
      ensures uuid in old(store.entries) ==>
        var meta := old(store.entries)[uuid];
        var g := ChunkIdxGuard(idx, meta, ModeOf(mode));
        && (g.Reject? ==> reply == Failure(g.err) && unchanged(store, chunks))
        && (g.Pass? && meta.done ==> reply == Done && unchanged(store, chunks))
        && (g.Pass? && !meta.done ==>
              && chunks.blobs == (if payload.Some? then old(chunks.blobs)[(uuid, idx.value) := payload.value]
                                  else old(chunks.blobs))
              && store.entries == old(store.entries)[uuid := Advance(meta)]
              && reply == ProgressReply(Advance(meta), g.value))
    {
      var g := MetaGuard(store.Exist(uuid), store.Get(uuid));
      if g.Reject? {
        reply := Failure(g.err);
        return;
      }
      var meta := g.value;
      var v := ChunkIdxGuard(idx, meta, ModeOf(mode));
      if v.Reject? {
        reply := Failure(v.err);
        return;
      }
      var serial := v.value;
      if meta.done {
        reply := Done;
        return;
      }
      if payload.Some? {
        var chunkId := if serial then meta.cur else idx.value;
        chunks.Write(uuid, chunkId, payload.value);
      }
      reply := UpdateChunkMeta(uuid, meta, serial);
    }

    /** `updateChunkMeta`: the reply is sent only after `store.set` has settled. */
    method UpdateChunkMeta(uuid: string, meta: ChunkMeta, serial: bool) returns (reply: Reply)
      modifies store
      ensures store.entries == old(store.entries)[uuid := Advance(meta)]
      ensures reply == ProgressReply(Advance(meta), serial)
    {
      var next := Advance(meta);
      store.Set(uuid, next);
      reply := ProgressReply(next, serial);
    }

    /** POST /upload_end: the completion is logged (and `onUploaded` called, when given), then the chunks are cleared. */
    method UploadEnd(uuid: Option<string>) returns (reply: Reply)
      modifies chunks, assets, this
      ensures uuid.None? ==> reply == LackOfFields && unchanged(chunks, assets, this)
      ensures uuid.Some? && uuid.value !in store.entries ==>
        reply == Failure(Unexist) && unchanged(chunks, assets, this)
      ensures uuid.Some? && uuid.value in store.entries ==>
        var id := uuid.value;
        var meta := store.entries[id];
        if !AllPresent(old(chunks.blobs), id, meta.total) then
          reply == Failure(Incomplete) && unchanged(chunks, assets, this)
        else
          && reply == Complete
          && assets.files == old(assets.files)[meta.filename := Assembled(old(chunks.blobs), id, meta.total)]
          && chunks.blobs == Cleared(old(chunks.blobs), id, meta.total)
          && uploaded == old(uploaded) + [meta.filename]
    {
      if MissingField(Defined(uuid.Some?, true, true), ["uuid"]) {
        reply := LackOfFields;
        return;
      }
      var id := uuid.value;
      var g := MetaGuard(store.Exist(id), store.Get(id));
      if g.Reject? {
        reply := Failure(g.err);
        return;
      }
      var meta := g.value;
      var ok := ValidateChunks(chunks, id, meta);
      if !ok {
        reply := Failure(Incomplete);
        return;
      }
      var data := ConcatChunks(chunks, id, meta);
      assert data.Some?;
      assets.Write(meta.filename, data.value);
      uploaded := uploaded + [meta.filename];
      ClearChunks(chunks, id, meta);
      reply := Complete;
    }

    /** POST /upload_abort: 'aborted' (and the chunks cleared) iff `delete` reported a removal. */
    method UploadAbort(uuid: Option<string>) returns (reply: Reply)
      modifies store, chunks
      ensures old(Valid()) ==> Valid()
      ensures uuid.None? ==> reply == LackOfFields && unchanged(store, chunks)
      ensures uuid.Some? && uuid.value !in old(store.entries) ==>
        reply == Failure(Unexist) && unchanged(store, chunks)
      ensures uuid.Some? && uuid.value in old(store.entries) ==>
        && reply == Aborted
        && store.entries == old(store.entries) - {uuid.value}
        && chunks.blobs == Cleared(old(chunks.blobs), uuid.value, old(store.entries)[uuid.value].total)
    {
      if MissingField(Defined(uuid.Some?, true, true), ["uuid"]) {
        reply := LackOfFields;
        return;
      }
      var id := uuid.value;
      var g := MetaGuard(store.Exist(id), store.Get(id));
      if g.Reject? {
        reply := Failure(g.err);
        return;
      }
      var meta := g.value;
      var success := store.Delete(id);
      if success {
        ClearChunks(chunks, id, meta);
        reply := Aborted;
      } else {
        reply := Failed;
      }
    }
  }

  /** The same resume with a smaller total: here the parallel chunk is refused and nothing changes. */
  method ShrunkTotal() returns (reply: Reply, cur: int, kept: bool)
    ensures reply == Failure(BeyondLimit)
    ensures cur == 2
    ensures kept
  {
    var store := new MemoryStore();
    var chunks := new ChunkFolder();
    var assets := new AssetFolder();
    var r := new ExpressRouter(store, chunks, assets, true);
    var a := r.UploadStart(Some("foo"), Some(3), Some("foo.txt"));
    assert store.entries == map["foo" := ChunkMeta(0, 3, false, "foo.txt")];
    a := r.Upload("foo", Some(0), None, Some([1]));
    assert store.entries == map["foo" := ChunkMeta(1, 3, false, "foo.txt")];
    a := r.Upload("foo", Some(1), None, Some([2]));
    assert store.entries == map["foo" := ChunkMeta(2, 3, false, "foo.txt")];
    assert ("foo", 1) in chunks.blobs && chunks.blobs[("foo", 1)] == [2];
    a := r.UploadStart(Some("foo"), Some(1), Some("foo.txt"));
    assert store.entries == map["foo" := ChunkMeta(2, 1, false, "foo.txt")];
    reply := r.Upload("foo", Some(1), Some("parellel"), Some([3]));
    cur := store.entries["foo"].cur;
    kept := ("foo", 1) in chunks.blobs && chunks.blobs[("foo", 1)] == [2];
  }
}
