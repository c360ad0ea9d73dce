/**
 * What the three routers share: the reply bodies, the required-fields guard, the
 * session guard and the counter update (`updateChunkMeta`). The three router files
 * each carry their own copy of these; the copies make the same decisions.
 */
module Protocol {
  import opened Wrappers
  import opened Meta

  /** The `err` field of an error body. */
  datatype ErrKind =
    | Unexist          // 'unexist'
    | Conflict         // 'conflict'
    | InvalidIdx       // 'invalid idx'
    | OutRange         // 'idx out-range'
    | Duplicated       // 'duplicated'
    | Inaccessible     // 'inaccessible'
    | BeyondLimit      // 'beyond max limit times'
    | UnsupportedMode  // 'unsupport mode'
    | Incomplete       // 'incomplete'

  /** A response body; a target is the chunk index ending the URL `<prefix>/upload/<uuid>/<index>`. */
  datatype Reply =
    | LackOfFields                   // { msg: 'lack of required fields' }
    | Failure(err: ErrKind)          // { uuid, err }
    | Start(resumeAt: int)           // { uuid, status: 'start', target }
    | Exist                          // { uuid, status: 'exist' }
    | Pending(next: Option<int>)     // { uuid, status: 'pending', target? }
    | Done                           // { uuid, status: 'done' }
    | Complete                       // { uuid, msg: 'complete' }
    | Aborted                        // { uuid, msg: 'aborted' }
    | Failed                         // { uuid, msg: 'failed' }

  /** A middleware either passes a value on to the next handler or ends the request with an error. */
  datatype Guarded<T> = Pass(value: T) | Reject(err: ErrKind)

  /** Whether a request body leaves some required field undefined, walking the list in order. */
  function MissingField(present: set<string>, fields: seq<string>): (missing: bool)
    ensures missing <==> exists i :: 0 <= i < |fields| && fields[i] !in present
  {
    if fields == [] then false
    else if fields[0] !in present then true
    else
      var rest := MissingField(present, fields[1..]);
      assert forall i :: 1 <= i < |fields| ==> fields[i] == fields[1..][i - 1];
      rest
  }

  /** The names among `uuid`, `total`, `filename` that a request body defines. */
  function Defined(uuid: bool, total: bool, filename: bool): (present: set<string>)
    ensures "uuid" in present <==> uuid
    ensures "total" in present <==> total
    ensures "filename" in present <==> filename
  {
    (if uuid then {"uuid"} else {}) + (if total then {"total"} else {}) + (if filename then {"filename"} else {})
  }

  /**
   * `chunkMetaGuard`: `found` and `got` are what the store answered to `exist(uuid)` and
   * `get(uuid)`. A missing record reads as `undefined`, which fails `isChunkMeta`.
   */
  function MetaGuard(found: bool, got: Option<ChunkMeta>): (r: Guarded<ChunkMeta>)
    ensures r == Reject(Unexist) <==> !found
    ensures r == Reject(Conflict) <==> found && got.None?
    ensures r.Pass? <==> found && got.Some?
    ensures r.Pass? ==> r.value == got.value
  {
    if !found then Reject(Unexist)
    else if !IsChunkMeta(AsValue(got)) then Reject(Conflict)
    else Pass(got.value)
  }

  /** The upload mode a chunk request asks for: an absent or empty `mode` query means serial. */
  function ModeOf(query: Option<string>): (mode: string)
    ensures query.None? || query == Some("") ==> mode == "serial"
    ensures query.Some? && query.value != "" ==> mode == query.value
  {
    match query
    case None => "serial"
    case Some(m) => if m == "" then "serial" else m
  }

  /** The record after `updateChunkMeta`: `cur++`, and `done = true` once `cur >= total`. */
  function Advance(meta: ChunkMeta): (next: ChunkMeta)
    ensures next.cur == meta.cur + 1 && next.total == meta.total && next.filename == meta.filename
    ensures next.done <==> meta.done || next.cur >= next.total
    ensures WellFormed(meta) ==> WellFormed(next)
  {
    var cur := meta.cur + 1;
    meta.(cur := cur, done := if cur >= meta.total then true else meta.done)
  }

  /** The reply `updateChunkMeta` gives: the next target only for a serial upload. */
  function ProgressReply(next: ChunkMeta, serial: bool): (r: Reply)
    ensures r.Done? || r.Pending?
    ensures r == Done <==> next.cur >= next.total
    ensures r.Pending? ==> (r.next.Some? <==> serial)
    ensures r.Pending? && serial ==> r.next == Some(next.cur)
  {
    if next.cur >= next.total then Done
    else Pending(if serial then Some(next.cur) else None)
  }

  /** The record `createUploadTask(cur)` stores: a fresh or resumed, not-done session. */
  function Fresh(cur: int, total: int, filename: string): (m: ChunkMeta)
    ensures m.cur == cur && m.total == total && m.filename == filename && !m.done
    ensures cur >= 0 ==> WellFormed(m)
  {
    ChunkMeta(cur, total, false, filename)
  }

  /** The idx checks every router runs first: a number, and `0 <= idx <= total` (note: `total` itself passes). */
  predicate IdxInRange(idx: Option<int>, total: int) {
    idx.Some? && 0 <= idx.value <= total
  }
}
