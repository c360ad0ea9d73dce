/**
 * The Koa router (src/dnu_koa.ts): the upload session state machine over a
 * `MemoryStore`, a chunk folder and an assets folder.
 */
module KoaRouter {
  import opened Wrappers
  import opened Meta
  import opened Memory
  import opened Chunks
  import opened Protocol

  /**
   * What `chunkIdxGuard` hands on: whether the chunk is taken as serial, and the error
   * body it has already set without stopping the request (parallel mode past the total).
   */
  datatype Acceptance = Acceptance(serial: bool, earlyBody: Option<ErrKind>)

  /** `chunkIdxGuard`; `mode` is already defaulted by `ModeOf`. Parallel mode is spelled 'parellel'. */
  function ChunkIdxGuard(idx: Option<int>, meta: ChunkMeta, mode: string): (r: Guarded<Acceptance>)
    ensures r == Reject(InvalidIdx) <==> idx.None?
    ensures r == Reject(OutRange) <==> idx.Some? && !IdxInRange(idx, meta.total)
    ensures r == Reject(Duplicated) <==> IdxInRange(idx, meta.total) && mode == "serial" && idx.value < meta.cur
    ensures r == Reject(Inaccessible) <==> IdxInRange(idx, meta.total) && mode == "serial" && idx.value > meta.cur
    ensures r == Reject(UnsupportedMode) <==> IdxInRange(idx, meta.total) && mode != "serial" && mode != "parellel"
    ensures r != Reject(BeyondLimit) && r != Reject(Conflict) && r != Reject(Unexist) && r != Reject(Incomplete)
    ensures r.Pass? ==> IdxInRange(idx, meta.total) && (r.value.serial <==> mode == "serial")
    ensures r.Pass? && r.value.serial ==> idx.value == meta.cur && r.value.earlyBody.None?
    ensures r.Pass? && !r.value.serial ==> (r.value.earlyBody.Some? <==> meta.cur > meta.total)
    ensures r.Pass? && r.value.earlyBody.Some? ==> r.value.earlyBody.value == BeyondLimit
  {
    if idx.None? then Reject(InvalidIdx)
    else if idx.value > meta.total || idx.value < 0 then Reject(OutRange)
    else if mode == "serial" then
      if idx.value != meta.cur then
        if idx.value < meta.cur then Reject(Duplicated) else Reject(Inaccessible)
      else Pass(Acceptance(true, None))
    else if mode == "parellel" then
      Pass(Acceptance(false, if meta.cur > meta.total then Some(BeyondLimit) else None))
    else Reject(UnsupportedMode)
  }

  class KoaRouter {
    const store: MemoryStore
    const chunks: ChunkFolder
    const assets: AssetFolder
    const secondPass: bool
    /** The assets of completed uploads, oldest first; `options.onUploaded`, when given, is called with each. */
    var uploaded: seq<string>

    ghost predicate Valid()
      reads this, store
    {
      AllWellFormed(store.entries)
    }

    constructor (store: MemoryStore, chunks: ChunkFolder, assets: AssetFolder, secondPass: bool)
      ensures this.store == store && this.chunks == chunks && this.assets == assets
      ensures this.secondPass == secondPass && uploaded == []
      ensures Valid() <==> AllWellFormed(store.entries)
    {
      this.store := store;
      this.chunks := chunks;
      this.assets := assets;
      this.secondPass := secondPass;
      uploaded := [];
    }

    /** GET /status/:uuid */
    method Status(uuid: string) returns (reply: Reply)
      ensures uuid !in store.entries ==> reply == Failure(Unexist)
      ensures uuid in store.entries ==> reply == (if store.entries[uuid].done then Done else Pending(None))
    {
      var g := MetaGuard(store.Exist(uuid), store.Get(uuid));
      if g.Reject? {
        reply := Failure(g.err);
        return;
      }
      reply := if g.value.done then Done else Pending(None);
    }

    /** POST /upload_start: create, resume at the stored counter, or answer 'exist' for a done upload. */
    method UploadStart(uuid: Option<string>, total: Option<int>, filename: Option<string>) returns (reply: Reply)
      modifies store
      ensures old(Valid()) ==> Valid()
      ensures uuid.None? || total.None? || filename.None? ==>
        reply == LackOfFields && store.entries == old(store.entries)
      ensures uuid.Some? && total.Some? && filename.Some? ==>
        var id := uuid.value;
        if id in old(store.entries) && secondPass && old(store.entries)[id].done then
          reply == Exist && store.entries == old(store.entries)
        else
          var cur := if id in old(store.entries) then old(store.entries)[id].cur else 0;
          reply == Start(cur) && store.entries == old(store.entries)[id := Fresh(cur, total.value, filename.value)]
    {
      var fields := ["uuid", "total", "filename"];
      if MissingField(Defined(uuid.Some?, total.Some?, filename.Some?), fields) {
        reply := LackOfFields;
        return;
      }
      assert fields[0] == "uuid" && fields[1] == "total" && fields[2] == "filename";
      var id := uuid.value;
      var meta := store.Get(id);
      if meta.Some? {
        if secondPass && meta.value.done {
          reply := Exist;
          return;
        }
        reply := CreateUploadTask(id, meta.value.cur, total.value, filename.value);
      } else {
        reply := CreateUploadTask(id, 0, total.value, filename.value);
      }
    }

    method CreateUploadTask(uuid: string, cur: int, total: int, filename: string) returns (reply: Reply)
      modifies store
      ensures store.entries == old(store.entries)[uuid := Fresh(cur, total, filename)]
      ensures reply == Start(cur)
    {
      store.Set(uuid, Fresh(cur, total, filename));
      reply := Start(cur);
    }

    /**
     * POST /upload/:uuid/:idx?mode=…: the guards, then the chunk write and the counter update.
     * The chunk lands under the caller's index; the counter counts arrivals.
     */
    method Upload(uuid: string, idx: Option<int>, mode: Option<string>, payload: Bytes) returns (reply: Reply)
      modifies store, chunks
      ensures old(Valid()) ==> Valid()
      ensures reply != Failure(BeyondLimit) && reply != Failure(Conflict)
      ensures store.entries.Keys == old(store.entries).Keys
      ensures forall id :: id in old(store.entries) ==> store.entries[id].cur >= old(store.entries)[id].cur
      ensures uuid !in old(store.entries) ==> reply == Failure(Unexist) && unchanged(store, chunks)
      ensures uuid in old(store.entries) ==>
        var meta := old(store.entries)[uuid];
        var g := ChunkIdxGuard(idx, meta, ModeOf(mode));
        && (g.Reject? ==> reply == Failure(g.err) && unchanged(store, chunks))
        && (g.Pass? && meta.done ==> reply == Done && unchanged(store, chunks))
        && (g.Pass? && !meta.done ==>
              && chunks.blobs == old(chunks.blobs)[(uuid, idx.value) := payload]
              && store.entries == old(store.entries)[uuid := Advance(meta)]
              && reply == ProgressReply(Advance(meta), g.value.serial))
    {
      var g := MetaGuard(store.Exist(uuid), store.Get(uuid));
      if g.Reject? {
        reply := Failure(g.err);
        return;
      }
      var meta := g.value;
      var v := ChunkIdxGuard(idx, meta, ModeOf(mode));
      if v.Reject? {
        reply := Failure(v.err);
        return;
      }
      // A parallel chunk past the total has set an error body already; every path below replaces it.
      var serial := v.value.serial;
      if meta.done {
        reply := Done;
        return;
      }
      var chunkId := if serial then meta.cur else idx.value;
      chunks.Write(uuid, chunkId, payload);
      reply := UpdateChunkMeta(uuid, meta, serial);
    }

    /** `updateChunkMeta`: `cur++`, `done` once `cur >= total`, the reply, then `store.set`. */
    method UpdateChunkMeta(uuid: string, meta: ChunkMeta, serial: bool) returns (reply: Reply)
      modifies store
      ensures store.entries == old(store.entries)[uuid := Advance(meta)]
      ensures reply == ProgressReply(Advance(meta), serial)
    {
      var next := Advance(meta);
      reply := ProgressReply(next, serial);
      store.Set(uuid, next);
    }

    /** POST /upload_end: gated on every chunk being present; the session record is kept. */
    method UploadEnd(uuid: Option<string>) returns (reply: Reply)
      modifies chunks, assets, this
      ensures uuid.None? ==> reply == LackOfFields && unchanged(chunks, assets, this)
      ensures uuid.Some? && uuid.value !in store.entries ==>
        reply == Failure(Unexist) && unchanged(chunks, assets, this)
      ensures uuid.Some? && uuid.value in store.entries ==>
        var id := uuid.value;
        var meta := store.entries[id];
        if !AllPresent(old(chunks.blobs), id, meta.total) then
          reply == Failure(Incomplete) && unchanged(chunks, assets, this)
        else
          && reply == Complete
          && assets.files == old(assets.files)[meta.filename := Assembled(old(chunks.blobs), id, meta.total)]
          && chunks.blobs == Cleared(old(chunks.blobs), id, meta.total)
          && uploaded == old(uploaded) + [meta.filename]
    {
      if MissingField(Defined(uuid.Some?, true, true), ["uuid"]) {
        reply := LackOfFields;
        return;
      }
      var id := uuid.value;
      var g := MetaGuard(store.Exist(id), store.Get(id));
      if g.Reject? {
        reply := Failure(g.err);
        return;
      }
      var meta := g.value;
      var ok := ValidateChunks(chunks, id, meta);
      if !ok {
        reply := Failure(Incomplete);
        return;
      }
      var data := ConcatChunks(chunks, id, meta);
      assert data.Some?;
      assets.Write(meta.filename, data.value);
      uploaded := uploaded + [meta.filename];
      ClearChunks(chunks, id, meta);
      reply := Complete;
    }

    /** POST /upload_abort: drops the session record and its chunks below the total. */
    method UploadAbort(uuid: Option<string>) returns (reply: Reply)
      modifies store, chunks
      ensures old(Valid()) ==> Valid()
      ensures uuid.None? ==> reply == LackOfFields && unchanged(store, chunks)
      ensures uuid.Some? && uuid.value !in old(store.entries) ==>
        reply == Failure(Unexist) && unchanged(store, chunks)
      ensures uuid.Some? && uuid.value in old(store.entries) ==>
        && reply == Aborted
        && store.entries == old(store.entries) - {uuid.value}
        && chunks.blobs == Cleared(old(chunks.blobs), uuid.value, old(store.entries)[uuid.value].total)
    {
      if MissingField(Defined(uuid.Some?, true, true), ["uuid"]) {
        reply := LackOfFields;
        return;
      }
      var id := uuid.value;
      var g := MetaGuard(store.Exist(id), store.Get(id));
      if g.Reject? {
        reply := Failure(g.err);
        return;
      }
      var meta := g.value;
      var success := store.Delete(id);
      if success {
        ClearChunks(chunks, id, meta);
        reply := Aborted;
      } else {
        reply := Failed;
      }
    }
  }

  /** Two chunks posted in order, then `upload_end`: the asset is their concatenation and the chunk files are gone. */
  method EndToEnd(c0: Bytes, c1: Bytes) returns (replies: seq<Reply>, asset: Option<Bytes>, chunksLeft: bool)
    ensures replies == [Start(0), Pending(Some(1)), Done, Complete]
    ensures asset == Some(c0 + c1)
    ensures !chunksLeft
  {
    var store := new MemoryStore();
    var chunks := new ChunkFolder();
    var assets := new AssetFolder();
    var r := new KoaRouter(store, chunks, assets, true);
    var a := r.UploadStart(Some("tob"), Some(2), Some("tob.txt"));
    var b := r.Upload("tob", Some(0), None, c0);
    var c := r.Upload("tob", Some(1), None, c1);
    AssembleTwo(chunks.blobs, "tob", c0, c1);
    var d := r.UploadEnd(Some("tob"));
    replies := [a, b, c, d];
    asset := if "tob.txt" in assets.files then Some(assets.files["tob.txt"]) else None;
    chunksLeft := ("tob", 0) in chunks.blobs || ("tob", 1) in chunks.blobs;
  }

  /**
   * A second `upload_start` after two chunks resumes at index 2; once the counter reaches
   * the total, `upload_start` answers 'exist' when second pass is on.
   */
  method ResumeThenBypass() returns (resumed: Reply, finished: Reply, again: Reply)
    ensures resumed == Start(2)
    ensures finished == Done
    ensures again == Exist
  {
    var store := new MemoryStore();
    var chunks := new ChunkFolder();
    var assets := new AssetFolder();
    var r := new KoaRouter(store, chunks, assets, true);
    var a := r.UploadStart(Some("foo"), Some(3), Some("foo.txt"));
    a := r.Upload("foo", Some(0), None, [1]);
    a := r.Upload("foo", Some(1), None, [2]);
    resumed := r.UploadStart(Some("foo"), Some(3), Some("foo.txt"));
    finished := r.Upload("foo", Some(2), None, [3]);
    again := r.UploadStart(Some("foo"), Some(3), Some("foo.txt"));
  }

  /** Abort after one chunk: 'aborted', the record is gone and a later status query finds nothing. */
  method AbortScenario(c0: Bytes) returns (pending: Reply, aborted: Reply, status: Reply, chunkLeft: bool)
    ensures pending == Pending(Some(1))
    ensures aborted == Aborted
    ensures status == Failure(Unexist)
    ensures !chunkLeft
  {
    var store := new MemoryStore();
    var chunks := new ChunkFolder();
    var assets := new AssetFolder();
    var r := new KoaRouter(store, chunks, assets, true);
    var a := r.UploadStart(Some("hiss"), Some(2), Some("hiss.txt"));
    pending := r.Upload("hiss", Some(0), None, c0);
    aborted := r.UploadAbort(Some("hiss"));
    status := r.Status("hiss");
    chunkLeft := ("hiss", 0) in chunks.blobs;
  }

  /**
   * A resume with a smaller total leaves the counter past it; a parallel chunk is then still
   * written and counted (the 'beyond max limit times' body is overwritten).
   */
  method ShrunkTotal() returns (reply: Reply, cur: int, written: bool)
    ensures reply == Done
    ensures cur == 3
    ensures written
  {
    var store := new MemoryStore();
    var chunks := new ChunkFolder();
    var assets := new AssetFolder();
    var r := new KoaRouter(store, chunks, assets, true);
    var a := r.UploadStart(Some("foo"), Some(3), Some("foo.txt"));
    assert store.entries == map["foo" := ChunkMeta(0, 3, false, "foo.txt")];
    a := r.Upload("foo", Some(0), None, [1]);
    assert store.entries == map["foo" := ChunkMeta(1, 3, false, "foo.txt")];
    a := r.Upload("foo", Some(1), None, [2]);
    assert store.entries == map["foo" := ChunkMeta(2, 3, false, "foo.txt")];
    assert ("foo", 1) in chunks.blobs && chunks.blobs[("foo", 1)] == [2];
    a := r.UploadStart(Some("foo"), Some(1), Some("foo.txt"));
    assert store.entries == map["foo" := ChunkMeta(2, 1, false, "foo.txt")];
    reply := r.Upload("foo", Some(1), Some("parellel"), [3]);
    cur := store.entries["foo"].cur;
    written := ("foo", 1) in chunks.blobs && chunks.blobs[("foo", 1)] == [3];
  }

  /**
   * A router accepts whatever store it is given, including records the application set
   * itself: here a record marked done before reaching its total is bypassed as 'exist'.
   */
  method PrefilledStore() returns (reply: Reply, kept: bool)
    ensures reply == Exist
    ensures kept
  {
    var store := new MemoryStore();
    store.Set("a", ChunkMeta(1, 3, true, "a.txt"));
    var chunks := new ChunkFolder();
    var assets := new AssetFolder();
    var r := new KoaRouter(store, chunks, assets, true);
    reply := r.UploadStart(Some("a"), Some(3), Some("a.txt"));
    kept := store.entries == map["a" := ChunkMeta(1, 3, true, "a.txt")];
  }
}
