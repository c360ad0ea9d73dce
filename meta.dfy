/**
 * The session record and the structural check on it (src/index.ts).
 */
module Meta {
  import opened Wrappers

  /** Per-upload bookkeeping kept by a store under the upload id. */
  datatype ChunkMeta = ChunkMeta(cur: int, total: int, done: bool, filename: string)

  /**
   * The values a store hands to `isChunkMeta`: falsy (undefined, null, 0, '', false), or an
   * object in which each of the four fields is missing or holds a value of its type.
   */
  datatype Value =
    | Falsy
    | Object(cur: Option<int>, total: Option<int>, done: Option<bool>, filename: Option<string>)

  /** A value is chunk metadata iff it is a non-falsy object carrying both `cur` and `total`; the other fields are not looked at. */
  predicate IsChunkMeta(v: Value) {
    match v
    case Falsy => false
    case Object(cur, total, _, _) => cur.Some? && total.Some?
  }

  /** The value a store hands to `isChunkMeta`: `undefined` for a missing entry, else the record itself. */
  function AsValue(stored: Option<ChunkMeta>): (v: Value)
    ensures stored.None? <==> v == Falsy
    ensures IsChunkMeta(v) <==> stored.Some?
  {
    match stored
    case None => Falsy
    case Some(m) => Object(Some(m.cur), Some(m.total), Some(m.done), Some(m.filename))
  }

  lemma FalsyIsNotChunkMeta()
    ensures !IsChunkMeta(Falsy)
  {
  }

  lemma MissingFieldIsNotChunkMeta(v: Value)
    requires v.Object? && (v.cur.None? || v.total.None?)
    ensures !IsChunkMeta(v)
  {
  }

  /** Whatever the values, and whether or not `done`/`filename` are there, `cur` and `total` suffice. */
  lemma CurAndTotalSuffice(cur: int, total: int, done: Option<bool>, filename: Option<string>)
    ensures IsChunkMeta(Object(Some(cur), Some(total), done, filename))
  {
  }

  /**
   * What the routers keep true of every stored record: the counter is never negative, and a
   * record marked done has reached its total. (The converse is not kept: a resumed start may
   * store a counter already at or beyond a smaller new total with `done` false.)
   */
  predicate WellFormed(m: ChunkMeta) {
    m.cur >= 0 && (m.done ==> m.cur >= m.total)
  }

  predicate AllWellFormed(entries: map<string, ChunkMeta>) {
    forall id :: id in entries ==> WellFormed(entries[id])
  }
}
