/**
 * The upload client (src/client.ts): chunk arithmetic, and the busy flag and
 * progress counter as the promise chain of `upload` moves them. Each awaited server
 * answer is one call of `OnReply`; `fetch` itself is left to the caller.
 */
module Client {
  import opened Wrappers
  import opened Chunks

  /** The chunk size (5 MiB) a client uses when none, or 0, is configured. */
  const DefaultChunkSize: nat := 5 * 1024 * 1024

  function Min(a: int, b: int): int {
    if a <= b then a else b
  }

  /** The number of chunks a buffer is cut into: the fewest chunks of the given size that cover it. */
  function CountChunks(len: nat, chunkSize: nat): (n: nat)
    requires chunkSize > 0
    ensures n * chunkSize >= len
    ensures n > 0 ==> (n - 1) * chunkSize < len
  {
    var q := (len + chunkSize - 1) / chunkSize;
    var r := (len + chunkSize - 1) % chunkSize;
    assert q * chunkSize + r == len + chunkSize - 1;
    assert (q - 1) * chunkSize == q * chunkSize - chunkSize;
    q
  }

  /** How `ArrayBuffer.prototype.slice` reads a bound: negative counts from the end, then clamped to `[0, len]`. */
  function Clamp(rel: int, len: nat): (i: nat)
    ensures i <= len
    ensures 0 <= rel ==> i == Min(rel, len)
  {
    if rel < 0 then (if len + rel < 0 then 0 else len + rel)
    else if rel > len then len
    else rel
  }

  /**
   * `ArrayBuffer.prototype.slice`: the run of bytes from the clamped start up to the clamped
   * end, and empty when the clamped end does not lie after the clamped start.
   */
  function ArraySlice(ab: Bytes, begin: int, end: int): (s: Bytes)
    ensures |s| <= |ab|
    ensures |s| == (if Clamp(begin, |ab|) < Clamp(end, |ab|) then Clamp(end, |ab|) - Clamp(begin, |ab|) else 0)
    ensures forall k :: 0 <= k < |s| ==> s[k] == ab[Clamp(begin, |ab|) + k]
  {
    var b := Clamp(begin, |ab|);
    var e := Clamp(end, |ab|);
    if b < e then ab[b..e] else []
  }

  /** Chunk number `cur` of a buffer: the slice from `cur * chunkSize` up to the start of the next chunk. */
  function SliceChunk(cur: int, ab: Bytes, chunkSize: nat): (s: Bytes)
    requires chunkSize > 0
    ensures |s| <= chunkSize
  {
    assert (cur + 1) * chunkSize == cur * chunkSize + chunkSize;
    ArraySlice(ab, cur * chunkSize, (cur + 1) * chunkSize)
  }

  /** For a chunk index that is not negative, the slice is the bytes `[i*cs, min((i+1)*cs, len))`. */
  lemma SliceWithin(i: nat, ab: Bytes, chunkSize: nat)
    requires chunkSize > 0
    ensures Min(i * chunkSize, |ab|) <= Min((i + 1) * chunkSize, |ab|)
    ensures SliceChunk(i, ab, chunkSize) == ab[Min(i * chunkSize, |ab|)..Min((i + 1) * chunkSize, |ab|)]
  {
    assert (i + 1) * chunkSize == i * chunkSize + chunkSize;
  }

  /** Every chunk the count covers is non-empty and at most one chunk size long. */
  lemma SliceNonEmpty(i: nat, ab: Bytes, chunkSize: nat)
    requires chunkSize > 0
    requires i < CountChunks(|ab|, chunkSize)
    ensures 0 < |SliceChunk(i, ab, chunkSize)| <= chunkSize
  {
    var n := CountChunks(|ab|, chunkSize);
    MulMonotone(i, n - 1, chunkSize);
    assert i * chunkSize < |ab|;
    SliceWithin(i, ab, chunkSize);
  }

  lemma MulMonotone(a: nat, b: nat, c: nat)
    requires a <= b
    ensures a * c <= b * c
  {
    assert b * c == a * c + (b - a) * c;
  }

  /** The `n` slices from index `from` on, joined in order. */
  function Joined(ab: Bytes, chunkSize: nat, from: int, n: nat): Bytes
    requires chunkSize > 0
    decreases n
  {
    if n == 0 then [] else Joined(ab, chunkSize, from, n - 1) + SliceChunk(from + n - 1, ab, chunkSize)
  }

  /** The first `n` slices joined are the first `min(n * cs, len)` bytes. */
  lemma {:induction false} JoinedIsPrefix(ab: Bytes, chunkSize: nat, n: nat)
    requires chunkSize > 0
    ensures Min(n * chunkSize, |ab|) <= |ab|
    ensures Joined(ab, chunkSize, 0, n) == ab[..Min(n * chunkSize, |ab|)]
  {
    if n > 0 {
      JoinedIsPrefix(ab, chunkSize, n - 1);
      SliceWithin(n - 1, ab, chunkSize);
      assert (n - 1 + 1) * chunkSize == n * chunkSize;
      var a := Min((n - 1) * chunkSize, |ab|);
      var b := Min(n * chunkSize, |ab|);
      assert ab[..a] + ab[a..b] == ab[..b];
    }
  }

  /** Slicing a buffer into `countChunks` chunks and joining them gives the buffer back. */
  lemma RoundTrip(ab: Bytes, chunkSize: nat)
    requires chunkSize > 0
    ensures Joined(ab, chunkSize, 0, CountChunks(|ab|, chunkSize)) == ab
  {
    JoinedIsPrefix(ab, chunkSize, CountChunks(|ab|, chunkSize));
  }

  /** With a chunk size of 1024, buffers of 1023, 1024 and 1025 bytes take 1, 1 and 2 chunks. */
  lemma CountChunksExamples()
    ensures CountChunks(1023, 1024) == 1
    ensures CountChunks(1024, 1024) == 1
    ensures CountChunks(1025, 1024) == 2
  {
  }

  /** "abcde" in chunks of 2 is "ab", "cd", "e". */
  lemma SliceChunkExamples()
    ensures SliceChunk(0, [97, 98, 99, 100, 101], 2) == [97, 98]
    ensures SliceChunk(1, [97, 98, 99, 100, 101], 2) == [99, 100]
    ensures SliceChunk(2, [97, 98, 99, 100, 101], 2) == [101]
  {
  }

  /** The client's `meta` object as a hook sees it at the moment of the call. */
  datatype ClientMeta = ClientMeta(cur: int, filename: string, total: int)

  /** A lifecycle or event hook call. */
  datatype Hook =
    | OnStart(meta: ClientMeta)
    | OnChunkUploaded(meta: ClientMeta)
    | OnSecondPass(uuid: string)
    | OnSuccess(meta: ClientMeta)
    | OnEnd(failed: bool)        // `onEnd()`, or `onEnd(err)` from the catch handler
    | OnError

  /** A request handed to `fetch`. */
  datatype Request =
    | AbortRequest(uuid: string)
    | StartRequest(uuid: string, total: int, filename: string)
    | ChunkRequest(target: string, body: Bytes)
    | EndRequest(uuid: string)

  /** What a `fetch` settles to: a parsed JSON body, or a rejection. */
  datatype Answer = Json(uuid: string, status: string, target: string) | Rejected

  /** The `onChunkUploaded` calls for `k` acknowledged chunks, the first at counter `from`. */
  function Uploaded(from: int, k: nat, filename: string, total: int): seq<Hook> {
    seq(k, j => OnChunkUploaded(ClientMeta(from + j, filename, total)))
  }

  /** Which request of the chain is awaiting its answer. */
  datatype Phase = Idle | Resetting | Starting | Chunking | Ending

  class DnuClient {
    const chunkSize: nat
    var uploading: bool
    /** `this.meta`: never reset between uploads. */
    var cur: int
    var filename: string
    var total: int
    /** The id and the buffer of the upload in progress. */
    var uuid: string
    var payload: Bytes
    var phase: Phase
    var hooks: seq<Hook>
    var requests: seq<Request>
    /** The counter when the current upload began, and the chunk bodies it has sent, joined. */
    ghost var firstIdx: int
    ghost var sentBytes: Bytes

    ghost predicate Valid()
      reads this
    {
      && chunkSize > 0
      && (phase != Idle ==> uploading)
      && firstIdx <= cur
      && ((phase == Resetting || phase == Starting) ==> cur == firstIdx && sentBytes == [])
      && (phase == Chunking ==> sentBytes == Joined(payload, chunkSize, firstIdx, cur - firstIdx + 1))
      && (phase == Ending ==> sentBytes == Joined(payload, chunkSize, firstIdx, cur - firstIdx))
    }

    function Meta(): ClientMeta
      reads this
    {
      ClientMeta(cur, filename, total)
    }

    /** `chunkSize` is 0 when the option is not given. */
    constructor (chunkSize: nat)
      ensures Valid()
      ensures this.chunkSize == (if chunkSize == 0 then DefaultChunkSize else chunkSize)
      ensures !uploading && phase == Idle && cur == 0 && filename == "" && total == 0
      ensures hooks == [] && requests == []
    {
      this.chunkSize := if chunkSize == 0 then DefaultChunkSize else chunkSize;
      uploading := false;
      cur, filename, total := 0, "", 0;
      uuid, payload := "", [];
      phase := Idle;
      hooks, requests := [], [];
      firstIdx, sentBytes := 0, [];
    }

    /**
     * The synchronous part of `upload`: throws while another upload is in flight,
     * otherwise marks the client busy, records the file and sends the first request
     * (the reset when `override` is set, else the start).
     */
    method Upload(filename: string, ab: Bytes, override: bool, uuid: string) returns (thrown: bool)
      requires Valid()
      modifies this
      ensures Valid()
      ensures thrown <==> old(uploading)
      ensures thrown ==> unchanged(this)
      ensures !thrown ==>
        && uploading && this.filename == filename && total == CountChunks(|ab|, chunkSize)
        && cur == old(cur) && payload == ab && this.uuid == uuid && hooks == old(hooks)
        && phase == (if override then Resetting else Starting)
        && requests == old(requests) + [if override then AbortRequest(uuid) else StartRequest(uuid, total, filename)]
    {
      if uploading {
        return true;
      }
      uploading := true;
      this.uuid := uuid;
      this.filename := filename;
      total := CountChunks(|ab|, chunkSize);
      payload := ab;
      firstIdx, sentBytes := cur, [];
      if override {
        requests := requests + [AbortRequest(uuid)];
        phase := Resetting;
      } else {
        requests := requests + [StartRequest(uuid, total, filename)];
        phase := Starting;
      }
      return false;
    }

    /** The answer to the request in flight. */
    method OnReply(answer: Answer)
      requires Valid() && phase != Idle
      modifies this
      ensures Valid()
      ensures uuid == old(uuid) && payload == old(payload) && filename == old(filename) && total == old(total)
      ensures firstIdx == old(firstIdx)
      ensures answer.Rejected? ==>
        && !uploading && phase == Idle && cur == old(cur) && requests == old(requests)
        && hooks == old(hooks) + [OnError, OnEnd(true)]
      ensures answer.Json? && old(phase) == Resetting ==>
        && uploading && phase == Starting && cur == old(cur) && hooks == old(hooks)
        && requests == old(requests) + [StartRequest(uuid, total, filename)]
      ensures answer.Json? && old(phase) == Starting && answer.status == "exist" ==>
        && uploading && phase == Idle && cur == old(cur) && requests == old(requests)
        && hooks == old(hooks) + [OnStart(old(Meta())), OnSecondPass(answer.uuid), OnEnd(false)]
      ensures answer.Json? && old(phase) == Starting && answer.status != "exist" ==>
        && uploading && phase == Chunking && cur == old(cur)
        && hooks == old(hooks) + [OnStart(old(Meta()))]
        && requests == old(requests) + [ChunkRequest(answer.target, SliceChunk(cur, payload, chunkSize))]
      ensures answer.Json? && old(phase) == Chunking ==>
        && uploading && cur == old(cur) + 1
        && hooks == old(hooks) + [OnChunkUploaded(old(Meta()))]
        && (answer.status == "pending" ==>
              phase == Chunking && requests == old(requests) + [ChunkRequest(answer.target, SliceChunk(cur, payload, chunkSize))])
        && (answer.status != "pending" ==>
              phase == Ending && requests == old(requests) + [EndRequest(uuid)])
      ensures answer.Json? && old(phase) == Ending ==>
        && !uploading && phase == Idle && cur == old(cur) && requests == old(requests)
        && hooks == old(hooks) + [OnSuccess(old(Meta())), OnEnd(false)]
    {
      if answer.Rejected? {
        hooks := hooks + [OnError, OnEnd(true)];
        uploading := false;
        phase := Idle;
        return;
      }
      match phase {
        case Resetting =>
          requests := requests + [StartRequest(uuid, total, filename)];
          phase := Starting;
        case Starting =>
          hooks := hooks + [OnStart(Meta())];
          if answer.status == "exist" {
            hooks := hooks + [OnSecondPass(answer.uuid), OnEnd(false)];
            phase := Idle;
          } else {
            SendChunk(answer.target);
          }
        case Chunking =>
          hooks := hooks + [OnChunkUploaded(Meta())];
          cur := cur + 1;
          if answer.status == "pending" {
            SendChunk(answer.target);
          } else {
            // 'done', or any other body: the chunk chain settles and `end` follows.
            requests := requests + [EndRequest(uuid)];
            phase := Ending;
          }
        case Ending =>
          uploading := false;
          hooks := hooks + [OnSuccess(Meta()), OnEnd(false)];
          phase := Idle;
      }
    }

    /** `chunk(target, ab)`: post the slice at the current counter. */
    method SendChunk(target: string)
      requires chunkSize > 0 && uploading && firstIdx <= cur
      requires sentBytes == Joined(payload, chunkSize, firstIdx, cur - firstIdx)
      modifies this
      ensures Valid() && phase == Chunking
      ensures requests == old(requests) + [ChunkRequest(target, SliceChunk(cur, payload, chunkSize))]
      ensures hooks == old(hooks) && uploading && cur == old(cur)
      ensures uuid == old(uuid) && payload == old(payload) && filename == old(filename) && total == old(total)
      ensures firstIdx == old(firstIdx)
    {
      var body := SliceChunk(cur, payload, chunkSize);
      requests := requests + [ChunkRequest(target, body)];
      sentBytes := sentBytes + body;
      phase := Chunking;
    }

    /**
     * The chunk chain as a loop: feed answers while chunks are being posted. It stops
     * after the first answer that is not 'pending' (the chain then ends or fails).
     */
    method ChunkLoop(answers: seq<Answer>) returns (used: nat)
      requires Valid() && phase == Chunking
      modifies this
      ensures Valid()
      ensures used <= |answers|
      ensures forall j :: 0 <= j < used && j + 1 < used ==> answers[j].Json? && answers[j].status == "pending"
      ensures phase == Chunking ==> used == |answers| && forall j :: 0 <= j < used ==> answers[j].Json? && answers[j].status == "pending"
      ensures phase != Chunking ==> 0 < used && !(answers[used - 1].Json? && answers[used - 1].status == "pending")
      ensures phase != Chunking && answers[used - 1].Json? ==> phase == Ending && cur == old(cur) + used
      ensures phase != Chunking && answers[used - 1].Rejected? ==> phase == Idle && !uploading && cur == old(cur) + used - 1
      ensures phase == Chunking ==> cur == old(cur) + used
      ensures (phase == Chunking || answers[used - 1].Json?) ==> hooks == old(hooks) + Uploaded(old(cur), used, filename, total)
      ensures phase != Chunking && answers[used - 1].Rejected? ==>
        hooks == old(hooks) + Uploaded(old(cur), used - 1, filename, total) + [OnError, OnEnd(true)]
      ensures firstIdx == old(firstIdx) && payload == old(payload) && total == old(total) && filename == old(filename)
    {
      used := 0;
      while used < |answers| && phase == Chunking
        invariant Valid()
        invariant used <= |answers|
        invariant firstIdx == old(firstIdx) && payload == old(payload) && total == old(total) && filename == old(filename)
        invariant forall j :: 0 <= j < used && j + 1 < used ==> answers[j].Json? && answers[j].status == "pending"
        invariant phase == Chunking ==> cur == old(cur) + used && forall j :: 0 <= j < used ==> answers[j].Json? && answers[j].status == "pending"
        invariant phase != Chunking ==> 0 < used && !(answers[used - 1].Json? && answers[used - 1].status == "pending")
        invariant phase != Chunking && answers[used - 1].Json? ==> phase == Ending && cur == old(cur) + used
        invariant phase != Chunking && answers[used - 1].Rejected? ==> phase == Idle && !uploading && cur == old(cur) + used - 1
        invariant (phase == Chunking || answers[used - 1].Json?) ==> hooks == old(hooks) + Uploaded(old(cur), used, filename, total)
        invariant phase != Chunking && answers[used - 1].Rejected? ==>
          hooks == old(hooks) + Uploaded(old(cur), used - 1, filename, total) + [OnError, OnEnd(true)]
        decreases |answers| - used
      {
        ghost var before := hooks;
        OnReply(answers[used]);
        assert Uploaded(old(cur), used + 1, filename, total) == Uploaded(old(cur), used, filename, total) + [OnChunkUploaded(ClientMeta(old(cur) + used, filename, total))];
        used := used + 1;
      }
    }
  }

  /** A chain that ends in `end`, started at counter 0 and told 'done' after `countChunks` chunks, has sent the whole buffer. */
  lemma SentAll(c: DnuClient)
    requires c.Valid() && c.phase == Ending
    requires c.firstIdx == 0 && c.cur == CountChunks(|c.payload|, c.chunkSize)
    ensures c.sentBytes == c.payload
  {
    RoundTrip(c.payload, c.chunkSize);
  }

  /**
   * A 20-byte file in chunks of 6, the server asking for each chunk in turn: `onStart`
   * once with counter 0, `onChunkUploaded` four times, `onSuccess` once with counter 4,
   * `onEnd` once; the chunks posted join up to the file.
   */
  method LifecycleHooks(content: Bytes) returns (calls: seq<Hook>, busy: bool, ghost sent: Bytes)
    requires |content| == 20
    ensures calls == [OnStart(ClientMeta(0, "bar.txt", 4))] + Uploaded(0, 4, "bar.txt", 4)
                     + [OnSuccess(ClientMeta(4, "bar.txt", 4)), OnEnd(false)]
    ensures !busy
    ensures sent == content
  {
    var c := new DnuClient(6);
    var thrown := c.Upload("bar.txt", content, false, "bar");
    assert c.total == 4;
    c.OnReply(Json("bar", "start", "/api/upload/bar/0"));
    var answers := [Json("bar", "pending", "/api/upload/bar/1"), Json("bar", "pending", "/api/upload/bar/2"),
                    Json("bar", "pending", "/api/upload/bar/3"), Json("bar", "done", "")];
    var used := c.ChunkLoop(answers);
    // Only the fourth answer is not 'pending', so the chain stops there and goes on to `end`.
    assert answers[3].status != "pending";
    assert c.phase != Chunking;
    assert answers[0].status == "pending" && answers[1].status == "pending" && answers[2].status == "pending";
    assert used == 4;
    assert c.phase == Ending && c.firstIdx == 0 && c.cur == 4 == CountChunks(20, 6);
    SentAll(c);
    sent := c.sentBytes;
    c.OnReply(Json("bar", "complete", ""));
    calls, busy := c.hooks, c.uploading;
  }

  /**
   * The server already holds the finished file: `onSecondPass` and `onEnd` fire, no chunk is
   * posted, and the busy flag stays set, so the next `upload` throws.
   */
  method SecondPassLeavesBusy(content: Bytes) returns (calls: seq<Hook>, chunkPosts: nat, nextThrows: bool)
    ensures calls == [OnStart(ClientMeta(0, "foo.txt", CountChunks(|content|, 6))), OnSecondPass("foo"), OnEnd(false)]
    ensures chunkPosts == 0
    ensures nextThrows
  {
    var c := new DnuClient(6);
    var thrown := c.Upload("foo.txt", content, false, "foo");
    c.OnReply(Json("foo", "exist", ""));
    calls := c.hooks;
    chunkPosts := |set r | r in c.requests && r.ChunkRequest?|;
    assert c.requests == [StartRequest("foo", CountChunks(|content|, 6), "foo.txt")];
    nextThrows := c.Upload("foo.txt", content, false, "foo");
  }
}
