# dnu — a verified model of resumable chunked upload

dnu splits a file into fixed-size chunks on the client and sends them one request at a time.
The server keeps one record per upload id: `cur`, the number of chunks received; `total`; `done`;
and `filename`. It writes each chunk to a file named `<uuid>-<idx>`. When the client calls
`upload_end`, the server checks that every chunk below `total` is present, joins the chunks into
the asset file and deletes them.

An interrupted upload restarts through `upload_start`. If a record exists, `upload_start` answers
with the stored counter. With "second pass" enabled, a finished upload is answered with `exist`
instead. This project models that protocol in Dafny and proves properties of the model.

- `Meta` (`src/index.ts`): the `ChunkMeta` record and the `isChunkMeta` shape check, over a small model of JavaScript values.
- `Memory` (`src/store/memory.ts`): the per-instance `MemoryStore` class (`get`, `set`, `delete`, `exist`).
- `SharedStore` (`src/memoryStore.ts`): the process-wide store object the legacy router uses.
  It is one object that every legacy router is given.
- `Chunks` (`src/utils/index.ts`): the chunk folder and the asset folder as maps, and `validateChunks`, `concatChunks` and `clearChunks` as loops over them.
  These are specified by `AllPresent`, `Assembled` and `Cleared`.
- `Protocol`: what the three routers share.
  It holds the reply bodies, the required-fields guard, `chunkMetaGuard`, the counter update of `updateChunkMeta` and the record `createUploadTask` stores.
- `KoaRouter` (`src/dnu_koa.ts`), `ExpressRouter` (`src/dnu_express.ts`) and `LegacyRouter` (`src/express.ts`): each router is a class over a store, a chunk folder and an asset folder.
  Each route is a method whose contract gives the reply and the whole new state, for every guard outcome.
  Every route keeps the record invariant: `cur >= 0`, and `done` implies `cur >= total`.
  The routes accept any store content, and they preserve the invariant whenever it held before the call.
- `Tasks` (`src/utils/taskQueue.ts`): the bounded-concurrency `TaskQueue`.
  Each push and each fulfilled task is one method call.
  The ghost history shows that tasks start in push order and that `running` never exceeds the bound.
- `Client` (`src/client.ts`):
  - `countChunks` and `sliceChunk`, with `ArrayBuffer.slice` clamping written out. The proof shows that joining the slices gives the buffer back.
  - The `DnuClient` class as an event machine. `Upload` is the synchronous part of `upload`; each awaited server answer is one call of `OnReply`. `ChunkLoop` is the recursive `chunk` chain written as a loop.

Where the code does something a reader may not expect, the model follows the code:

- `upload_start` on an unfinished record resumes at the stored counter but stores the new `total`.
  A smaller total can leave `cur` at or beyond `total` with `done` false. So `0 <= cur <= total` is not an invariant; the preserved invariant is the weaker one above.
- The range check lets the index equal to `total` through.
- Abort and end delete only the chunk files below `total`.
- In the Koa router, a parallel chunk arriving when `cur > total` gets the 'beyond max limit times' body. The handler then overwrites that body, and the chunk is written and counted anyway.
  The Express router refuses the same chunk.
- The legacy router's pending branch does not call `store.set`. It changes the very object the store holds, so the counter advances all the same.
- The client's `exist` branch never clears the busy flag, so the next `upload` on that client throws.
  The client's `meta.cur` is never reset between uploads.

## Model

| member | source | states |
|---|---|---|
| Meta.AsValue | src/index.ts:14-16 | a missing record reads as a falsy value, and a stored record always passes `isChunkMeta` (modelled by the predicate `Meta.IsChunkMeta`, whose meaning the three lemmas below pin down) |
| Meta.FalsyIsNotChunkMeta | src/index.ts:15 | a falsy value is never chunk metadata |
| Meta.MissingFieldIsNotChunkMeta | src/index.ts:15 | an object lacking `cur` or `total` is not chunk metadata |
| Meta.CurAndTotalSuffice | src/index.ts:15 | an object with `cur` and `total` passes whatever `done` and `filename` are |
| Memory.MemoryStore.constructor | src/store/memory.ts:6-10 | a new store is empty: `exist` is false for every id |
| Memory.MemoryStore.Get | src/store/memory.ts:12-14 | returns the record stored under the id, or nothing when there is none |
| Memory.MemoryStore.Set | src/store/memory.ts:16-18 | stores the record under the id; every other id reads as before |
| Memory.MemoryStore.Delete | src/store/memory.ts:20-22 | reports whether the id was present, and removes it |
| Memory.MemoryStore.Exist | src/store/memory.ts:24-26 | `isChunkMeta(get(id))` holds exactly when the id has a record |
| Memory.SeparateInstances | src/store/memory.ts:3-10 | a record set in one store instance is not visible in another |
| SharedStore.SharedMemoryStore.Get | src/memoryStore.ts:7-9 | returns the record stored under the id, or nothing |
| SharedStore.SharedMemoryStore.Set | src/memoryStore.ts:11-13 | stores the record under the id; other ids unchanged |
| SharedStore.SharedMemoryStore.Delete | src/memoryStore.ts:15-17 | reports whether the id was present, and removes it |
| SharedStore.SharedMemoryStore.Exist | src/memoryStore.ts:19-25 | `isChunkMeta(get(id))` holds exactly when the id has a record |
| Chunks.ChunkFolder.Write | src/dnu_koa.ts:211-212 | the chunk file `<uuid>-<idx>` now holds the bytes; other files are unchanged |
| Chunks.AssetFolder.Write | src/dnu_koa.ts:260-262 | the asset file now holds the bytes; other files are unchanged |
| Chunks.ValidateChunks | src/utils/index.ts:16-25 | true exactly when every chunk file `0 .. total-1` exists (vacuously true for `total <= 0`) |
| Chunks.ConcatChunks | src/utils/index.ts:27-35 | when all chunks are present, the bytes of chunks `0 .. total-1` joined in index order |
| Chunks.ClearChunks | src/utils/index.ts:37-43 | removes this upload's chunk files below `total`; a missing file is not an error |
| Chunks.ClearKeepsOthers | src/utils/index.ts:37-43 | chunks of other uploads and chunks at or beyond `total` survive a clear unchanged |
| Chunks.ClearIdempotent | src/utils/index.ts:37-43 | clearing twice is the same as clearing once |
| Chunks.ClearedIsIncomplete | src/utils/index.ts:16-25 | after a clear with `total >= 1`, validation fails |
| Chunks.AssembledIgnoresOthers | src/utils/index.ts:27-35 | writing any file other than this upload's chunks below `total` does not change the assembled bytes |
| Chunks.AssembleTwo | test/koa.test.ts:199-225 | chunks 0 and 1 assemble to their concatenation in index order |
| Protocol.MissingField | src/dnu_koa.ts:26-38 | the guard rejects exactly when some required field is undefined |
| Protocol.Defined | src/dnu_koa.ts:159-160 | a field counts as present exactly when the body defines it |
| Protocol.MetaGuard | src/dnu_koa.ts:40-63 | 'unexist' iff `exist` is false; 'conflict' iff the record fails the shape check; otherwise the record passes on |
| Protocol.ModeOf | src/dnu_koa.ts:70 | an absent or empty `mode` query means serial; any other value is kept as given |
| Protocol.Advance | src/dnu_koa.ts:233-237 | `cur` grows by one; `done` becomes true once `cur >= total` and is never cleared; the record invariant is preserved |
| Protocol.ProgressReply | src/dnu_koa.ts:236-243 | the reply is always 'done' or 'pending': 'done' iff the new counter reached `total`, otherwise 'pending', with a next-chunk target (the new counter) exactly for serial uploads |
| Protocol.Fresh | src/dnu_koa.ts:161-164 | the stored record carries the given counter, total and filename, and is not done |
| KoaRouter.ChunkIdxGuard | src/dnu_koa.ts:65-115 | the range check is `Protocol.IdxInRange` (`0 <= idx <= total`, so `total` itself passes). Each rejection holds iff its condition does: 'invalid idx', 'idx out-range', 'duplicated', 'inaccessible', 'unsupport mode'. A parallel chunk is never rejected; it carries the 'beyond max limit times' body iff `cur > total` |
| KoaRouter.KoaRouter.constructor | src/dnu_koa.ts:117-134 | a router over the given store, chunk folder, asset folder and `secondPass` option, with no asset uploaded yet. The record invariant holds from the start exactly when the store's records already satisfy it, which an empty store does. The routes accept any store content and preserve the invariant whenever it held |
| KoaRouter.KoaRouter.Status | src/dnu_koa.ts:147-157 | 'unexist' for an unknown id; otherwise 'done' or 'pending' as the record says |
| KoaRouter.KoaRouter.UploadStart | src/dnu_koa.ts:159-187 | missing fields are rejected with no change. With second pass, a done record answers 'exist'. Otherwise the record is stored fresh at the old counter (0 when new), and the reply targets that index |
| KoaRouter.KoaRouter.CreateUploadTask | src/dnu_koa.ts:161-172 | stores a fresh record at the given counter and answers 'start' with that target |
| KoaRouter.KoaRouter.Upload | src/dnu_koa.ts:189-231 | the guard outcomes leave state unchanged; a done record answers 'done'. Otherwise the chunk is stored under its index and `cur` advances by one; the reply follows the new counter. 'beyond max limit' and 'conflict' never reach the client; counters never decrease |
| KoaRouter.KoaRouter.UpdateChunkMeta | src/dnu_koa.ts:233-246 | stores the advanced record; the reply is 'done' or 'pending' for the new counter |
| KoaRouter.KoaRouter.UploadEnd | src/dnu_koa.ts:249-280 | with a chunk missing, 'incomplete' and no change. Otherwise the asset holds the chunks joined in index order, the chunks below `total` are removed, and the completion is logged in `uploaded` (where `onUploaded` is called, when given); the record is kept |
| KoaRouter.KoaRouter.UploadAbort | src/dnu_koa.ts:282-294 | 'aborted'; the record is deleted and the chunks below `total` are removed |
| KoaRouter.EndToEnd | test/koa.test.ts:199-225 | start, chunk 0, chunk 1, end answers start/pending/done/complete. The asset is the two chunks joined, and no chunk file is left |
| KoaRouter.ResumeThenBypass | test/koa.test.ts:72-105 | a restart after two chunks resumes at index 2; after the last chunk, a restart answers 'exist' |
| KoaRouter.AbortScenario | test/koa.test.ts:227-246 | after abort the status query answers 'unexist' and the chunk file is gone |
| KoaRouter.PrefilledStore | src/dnu_koa.ts:121-131 | a router accepts a store the application filled itself; a record already marked done is bypassed as 'exist' and left as it was |
| KoaRouter.ShrunkTotal | src/dnu_koa.ts:98-104 | after a resume with a smaller total, a parallel chunk is still written and counted, pushing `cur` past `total` |
| ExpressRouter.ChunkIdxGuard | src/dnu_express.ts:53-98 | with the same range check `Protocol.IdxInRange`, each rejection holds iff its condition does; a parallel chunk is refused with 'beyond max limit times' iff `cur > total` |
| ExpressRouter.ExpressRouter.constructor | src/dnu_express.ts:101-116 | a router over the given store, folders and `secondPass` option, with no asset uploaded yet. The record invariant holds from the start exactly when the store's records satisfy it |
| ExpressRouter.ExpressRouter.Status | src/dnu_express.ts:129-138 | 'unexist' for an unknown id; otherwise 'done' or 'pending' |
| ExpressRouter.ExpressRouter.UploadStart | src/dnu_express.ts:140-167 | as the Koa route: missing fields, 'exist' for a done record under second pass, else resume or create |
| ExpressRouter.ExpressRouter.CreateUploadTask | src/dnu_express.ts:142-152 | stores a fresh record at the given counter and answers with that target |
| ExpressRouter.ExpressRouter.Upload | src/dnu_express.ts:169-202 | guard outcomes change nothing; a done record answers 'done'. Otherwise a raw body is written under the index, and the counter advances whether or not a body was written |
| ExpressRouter.ExpressRouter.UpdateChunkMeta | src/dnu_express.ts:204-222 | stores the advanced record, and the reply follows the new counter |
| ExpressRouter.ExpressRouter.UploadEnd | src/dnu_express.ts:225-247 | 'incomplete' with no change when a chunk is missing; else the asset is assembled, chunks cleared and the completion logged in `uploaded` (where `onUploaded` is called, when given) |
| ExpressRouter.ExpressRouter.UploadAbort | src/dnu_express.ts:249-263 | 'aborted'; the record is deleted and the chunks below `total` are removed |
| ExpressRouter.ShrunkTotal | src/dnu_express.ts:84-87 | after a resume with a smaller total, a parallel chunk is refused and nothing changes |
| LegacyRouter.IdxCheck | src/express.ts:120-141 | 'idx out-range' iff the index fails `Protocol.IdxInRange` (outside `0..total`); 'invalid idx' iff it is not a number or not the counter; passes iff it equals the counter |
| LegacyRouter.LegacyRouter.constructor | src/express.ts:58-67 | a router over the shared store and the two folders. The record invariant holds from the start exactly when the shared store's records satisfy it |
| LegacyRouter.LegacyRouter.Status | src/express.ts:80-98 | 'unexist' for an unknown id; otherwise 'done' or 'pending' |
| LegacyRouter.LegacyRouter.UploadStart | src/express.ts:100-115 | missing fields are rejected; otherwise the record is reset to counter 0, and the reply targets index 0 |
| LegacyRouter.LegacyRouter.Upload | src/express.ts:117-184 | index errors change nothing; a done record answers 'done'. Otherwise the chunk is written at the counter, the stored counter advances, and the reply is 'done' or 'pending' with the next target |
| LegacyRouter.LegacyRouter.UploadEnd | src/express.ts:186-206 | 'incomplete' with no change when a chunk is missing; else the asset is assembled and the chunks cleared |
| LegacyRouter.LegacyRouter.UploadAbort | src/express.ts:208-216 | always 'aborted' for a known id; the record is deleted and the chunks below `total` are removed |
| LegacyRouter.NoResume | src/express.ts:100-141 | a restart answers index 0 again; a chunk ahead of the counter is 'invalid idx' |
| LegacyRouter.SharedAcrossRouters | src/memoryStore.ts:4-26 | a session started through one legacy router is seen, and can be aborted, through another |
| Tasks.Startable | src/utils/taskQueue.ts:26-36 | one `next()` starts all queued tasks, or as many as fill the bound, and none when the bound is already reached |
| Tasks.TaskQueue.constructor | src/utils/taskQueue.ts:11-14 | a new queue has nothing running or queued |
| Tasks.TaskQueue.Push | src/utils/taskQueue.ts:16-19 | `running + queue length` grows by one. The oldest queued tasks start first, up to the bound; `onDone` is not called |
| Tasks.TaskQueue.Next | src/utils/taskQueue.ts:21-37 | with nothing running and nothing queued, calls `onDone` (if given) and starts nothing. Otherwise starts queued tasks front first while fewer than `concurrency` run |
| Tasks.TaskQueue.Complete | src/utils/taskQueue.ts:29-33 | a fulfilled task lowers `running` by one, then `next()` runs |
| Tasks.TenTasksThreeAtATime | test/taskQueue.task.ts:6-24 | ten pushes with concurrency 3 leave 3 running; tasks start in push order; `onDone` fires once, after the last task fulfils |
| Client.CountChunks | src/client.ts:95-97 | the least `n` with `n * chunkSize >= byteLength` |
| Client.Clamp | src/client.ts:99-101 | a slice bound lies in `[0, length]`; a non-negative bound is clamped to the length |
| Client.ArraySlice | src/client.ts:99-101 | the slice is the run of bytes from the clamped start, as long as the gap to the clamped end (empty when the end does not lie after the start), and so never longer than the buffer |
| Client.SliceChunk | src/client.ts:99-101 | a slice is never longer than the chunk size |
| Client.SliceWithin | src/client.ts:99-101 | chunk `i` is exactly bytes `[i*cs, min((i+1)*cs, len))` |
| Client.SliceNonEmpty | src/client.ts:95-101 | every chunk below `countChunks` is non-empty |
| Client.JoinedIsPrefix | src/client.ts:99-101 | the first `n` chunks joined are the first `min(n*cs, len)` bytes |
| Client.RoundTrip | src/client.ts:95-101 | joining chunks `0 .. countChunks-1` reproduces the buffer exactly |
| Client.CountChunksExamples | test/client.test.ts:44-52 | with chunk size 1024, buffers of 1023, 1024 and 1025 bytes take 1, 1 and 2 chunks |
| Client.SliceChunkExamples | test/client.test.ts:54-65 | "abcde" in chunks of 2 is "ab", "cd", "e" |
| Client.DnuClient.constructor | src/client.ts:41-62 | a chunk size of 0 (not given) becomes 5 MiB; the client starts idle with an empty meta |
| Client.DnuClient.Upload | src/client.ts:64-74 | throws iff an upload is in flight, changing nothing. Otherwise it marks the client busy, records the filename and chunk count, keeps the old counter, and sends reset or start |
| Client.DnuClient.OnReply | src/client.ts:74-178 | a rejection calls `onError` then `onEnd(err)` and clears the busy flag. 'exist' calls `onStart`, `onSecondPass` and `onEnd` and leaves the flag set. A chunk answer calls `onChunkUploaded` and then increments `cur`; 'pending' posts the next slice, anything else goes to `end`. `end` clears the flag, then calls `onSuccess` and `onEnd` |
| Client.DnuClient.SendChunk | src/client.ts:139-149 | posts the slice at the current counter to the given target |
| Client.DnuClient.ChunkLoop | src/client.ts:150-160 | consumes answers while they are 'pending' and stops after the first that is not. `cur` grows by one per acknowledged chunk, with one `onChunkUploaded` per chunk at counters `cur, cur+1, …` |
| Client.SentAll | src/client.ts:139-160 | an upload that started at counter 0 and was told 'done' after `countChunks` chunks has sent exactly the whole buffer |
| Client.LifecycleHooks | test/client.test.ts:101-131 | a 20-byte file in chunks of 6 gives `onStart` once with counter 0, `onChunkUploaded` four times, `onSuccess` once with counter 4 and `onEnd` once. The flag ends clear, and the bytes sent are the file |
| Client.SecondPassLeavesBusy | src/client.ts:77-92 | on 'exist', no chunk is posted, the hooks are `onStart`, `onSecondPass`, `onEnd`, and the next `upload` throws |

## Left out

- HTTP status codes, headers, URL prefixes and JSON encoding are left out. A reply is a datatype naming the response body; a target is the chunk index that ends its URL.
- Filesystem failures are left out: the 500 replies on stream errors and `unlink` errors. Chunk and asset files are maps that never fail.
  So are `initFolders` and name clashes between asset and chunk files that share a folder.
- `Number.parseInt` is left out. An index reaches the routers already parsed: `None` for NaN, `Some(n)` otherwise. Its lenient parsing of strings like "1abc" is not modelled.
- The `serial` flag that the index guard writes onto the record is not stored. The model passes it from the guard to the handler instead.
  No decision in the source reads it from an earlier request.
- Stores other than the in-memory ones are left out: `src/store/json.ts` and user-supplied or asynchronous stores.
  With a typed in-memory store, the 'conflict' branch of `chunkMetaGuard` cannot be taken, and the model proves this.
  Nor can the 'failed' reply of the Koa and Express abort routes: the guard has just seen the record, so `delete` returns true.
- The request body limit (`chunkSize` on the server) and body parsing are left out. A Koa chunk always arrives as bytes; an Express chunk may be a non-buffer body (`None`).
- Client: `guid`, the `fetch` transport, `host` and `prefix` are left out. The upload id is a parameter, and each `fetch` result is an `Answer` supplied by the caller.
  A response whose JSON fails to parse is not modelled.
- Client.DnuClient.OnReply: the hooks receive `this.meta` by reference in the source. The model records a snapshot taken at call time, so it does not capture later changes being visible through that reference.
- Client.DnuClient.constructor: a negative or fractional chunk size is not modelled (the size is a natural number). The division inside `Math.ceil` is modelled on integers.
- Tasks: a task is a number. Promise fulfilment is the explicit `Complete` call; JavaScript's microtask ordering and real concurrency are not modelled.
- The real concurrency between simultaneous requests to one router is left out. Each route runs to completion before the next begins.
- Tasks.TaskQueue.Complete: models fulfilment only. The queue attaches no rejection handler, so a rejected task keeps its slot forever, `next()` is not called for it, and `onDone` then never fires; in the model that task's `Complete` simply never arrives.
- Meta.IsChunkMeta: two behaviours of the shape check on arbitrary values are not modelled. A truthy primitive (a number or a string) makes the `in` test throw a TypeError, and an object whose `cur` or `total` is present but `undefined` passes the check. The model's values cannot be primitives, and a missing field stands for an absent key. Records put in a store by the routers never hit either case.
