/**
 * The chunk folder and the three loops over it (src/utils/index.ts). A chunk file
 * `${uuid}-${i}` is the entry `(uuid, i)`; the assets folder maps a file name to its bytes.
 */
module Chunks {
  import opened Wrappers
  import opened Meta

  newtype byte = b: int | 0 <= b < 256

  type Bytes = seq<byte>

  /** The file `${uuid}-${idx}`. */
  type ChunkKey = (string, int)

  class ChunkFolder {
    var blobs: map<ChunkKey, Bytes>

    constructor ()
      ensures blobs == map[]
    {
      blobs := map[];
    }

    /** A write stream on `${uuid}-${idx}` replaces any earlier content of that file. */
    method Write(uuid: string, idx: int, data: Bytes)
      modifies this
      ensures blobs == old(blobs)[(uuid, idx) := data]
    {
      blobs := blobs[(uuid, idx) := data];
    }
  }

  class AssetFolder {
    var files: map<string, Bytes>

    constructor ()
      ensures files == map[]
    {
      files := map[];
    }

    method Write(name: string, data: Bytes)
      modifies this
      ensures files == old(files)[name := data]
    {
      files := files[name := data];
    }
  }

  /** Every chunk `0 .. total-1` of `uuid` is on disk (vacuous when `total <= 0`). */
  ghost predicate AllPresent(blobs: map<ChunkKey, Bytes>, uuid: string, total: int) {
    forall i :: 0 <= i < total ==> (uuid, i) in blobs
  }

  /** Chunk 0 ++ chunk 1 ++ ... ++ chunk total-1, in index order. */
  ghost function Assembled(blobs: map<ChunkKey, Bytes>, uuid: string, total: int): Bytes
    requires AllPresent(blobs, uuid, total)
    decreases total
  {
    if total <= 0 then [] else Assembled(blobs, uuid, total - 1) + blobs[(uuid, total - 1)]
  }

  /** The folder with chunks `0 .. total-1` of `uuid` removed and every other file kept. */
  ghost function Cleared(blobs: map<ChunkKey, Bytes>, uuid: string, total: int): map<ChunkKey, Bytes> {
    map k | k in blobs && !(k.0 == uuid && 0 <= k.1 < total) :: blobs[k]
  }

  /** `validateChunks`: stops at the first missing chunk. */
  method ValidateChunks(folder: ChunkFolder, uuid: string, meta: ChunkMeta) returns (ok: bool)
    ensures ok <==> AllPresent(folder.blobs, uuid, meta.total)
  {
    var i := 0;
    while i < meta.total
      invariant 0 <= i
      invariant i == 0 || i <= meta.total
      invariant forall j :: 0 <= j < i ==> (uuid, j) in folder.blobs
    {
      if (uuid, i) !in folder.blobs {
        return false;
      }
      i := i + 1;
    }
    return true;
  }

  /**
   * `concatChunks`: the chunk streams opened in index order and joined. A stream on a
   * missing chunk fails when read; the result is then `None`.
   */
  method ConcatChunks(folder: ChunkFolder, uuid: string, meta: ChunkMeta) returns (data: Option<Bytes>)
    ensures data.Some? <==> AllPresent(folder.blobs, uuid, meta.total)
    ensures data.Some? ==> data.value == Assembled(folder.blobs, uuid, meta.total)
  {
    var acc: Bytes := [];
    var i := 0;
    while i < meta.total
      invariant 0 <= i
      invariant i == 0 || i <= meta.total
      invariant AllPresent(folder.blobs, uuid, i)
      invariant acc == Assembled(folder.blobs, uuid, i)
    {
      if (uuid, i) !in folder.blobs {
        return None;
      }
      acc := acc + folder.blobs[(uuid, i)];
      i := i + 1;
    }
    assert meta.total <= 0 ==> acc == [] == Assembled(folder.blobs, uuid, meta.total);
    return Some(acc);
  }

  /** `clearChunks`: unlinks each chunk of `uuid` below `total`; a missing file is skipped. */
  method ClearChunks(folder: ChunkFolder, uuid: string, meta: ChunkMeta)
    modifies folder
    ensures folder.blobs == Cleared(old(folder.blobs), uuid, meta.total)
  {
    var i := 0;
    while i < meta.total
      invariant 0 <= i
      invariant i == 0 || i <= meta.total
      invariant folder.blobs == Cleared(old(folder.blobs), uuid, i)
    {
      ClearedStep(old(folder.blobs), uuid, i);
      folder.blobs := folder.blobs - {(uuid, i)};
      i := i + 1;
    }
    assert meta.total <= 0 ==> Cleared(old(folder.blobs), uuid, i) == Cleared(old(folder.blobs), uuid, meta.total);
  }

  lemma ClearedStep(blobs: map<ChunkKey, Bytes>, uuid: string, i: int)
    requires 0 <= i
    ensures Cleared(blobs, uuid, i) - {(uuid, i)} == Cleared(blobs, uuid, i + 1)
  {
  }

  /** Chunks of other uploads, and chunks at or beyond `total`, survive a clear untouched. */
  lemma ClearKeepsOthers(blobs: map<ChunkKey, Bytes>, uuid: string, total: int, k: ChunkKey)
    requires k in blobs && (k.0 != uuid || k.1 < 0 || k.1 >= total)
    ensures k in Cleared(blobs, uuid, total) && Cleared(blobs, uuid, total)[k] == blobs[k]
  {
  }

  /** Clearing twice is clearing once, because missing files are ignored. */
  lemma ClearIdempotent(blobs: map<ChunkKey, Bytes>, uuid: string, total: int)
    ensures Cleared(Cleared(blobs, uuid, total), uuid, total) == Cleared(blobs, uuid, total)
  {
  }

  /** After a clear with at least one chunk, the upload no longer validates. */
  lemma ClearedIsIncomplete(blobs: map<ChunkKey, Bytes>, uuid: string, total: int)
    requires total >= 1
    ensures !AllPresent(Cleared(blobs, uuid, total), uuid, total)
  {
    assert (uuid, 0) !in Cleared(blobs, uuid, total);
  }

  /** Assembly reads only this upload's chunks below `total`: writes elsewhere leave it alone. */
  lemma {:induction false} AssembledIgnoresOthers(blobs: map<ChunkKey, Bytes>, uuid: string, total: int, k: ChunkKey, data: Bytes)
    requires AllPresent(blobs, uuid, total)
    requires k.0 != uuid || k.1 < 0 || k.1 >= total
    ensures AllPresent(blobs[k := data], uuid, total)
    ensures Assembled(blobs[k := data], uuid, total) == Assembled(blobs, uuid, total)
    decreases total
  {
    if total > 0 {
      AssembledIgnoresOthers(blobs, uuid, total - 1, k, data);
    }
  }

  /** Two chunks written as "ab" then "cd" (in either order) assemble to "abcd". */
  lemma AssembleTwo(blobs: map<ChunkKey, Bytes>, uuid: string, c0: Bytes, c1: Bytes)
    requires (uuid, 0) in blobs && blobs[(uuid, 0)] == c0
    requires (uuid, 1) in blobs && blobs[(uuid, 1)] == c1
    ensures AllPresent(blobs, uuid, 2) && Assembled(blobs, uuid, 2) == c0 + c1
  {
    assert Assembled(blobs, uuid, 1) == Assembled(blobs, uuid, 0) + c0;
  }
}
