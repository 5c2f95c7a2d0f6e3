# Verified model of the browser persistence layer

Impresspress runs a whole site inside a service worker: one sql.js database in
memory, exported as one file to OPFS, and an object store kept as OPFS files.
This project models the parts that decide whether what a request was told is
true after the worker dies, and proves them in Dafny 4.11. `dafny verify
dfyconfig.toml` checks everything.

How the files fit together:

- `FlushScope.dfy` and `ExportProtocol.dfy`: one flush per request. The
  thread-local cells (current scope, mutation epoch, exported-through epoch,
  export in flight) as a class proved against functions on a value, and those
  functions again as steps of the protocol: requests and writes interleaved at
  their awaits, exports queued one behind another, failures, crashes.
- `RecencyList.dfy`, `ReadCache.dfy`, `CacheCoherence.dfy`: the bounded read
  cache. First the duplicate-free recency list its callers see, then the map
  and lazily cleaned queue that implement it, then the cache beside OPFS under
  interleaved storage requests.
- `Transactions.dfy`: transaction framing and the write verdict on the one
  connection every task shares. Faults are a function from the number of the
  statement sent to what the world does to it, so every pattern of refusals and
  self-rollbacks is covered.
- `StoragePaths.dfy`, `ObjectTree.dfy`, `ChunkedWrite.dfy`, `DrainLoop.dfy`,
  `ListCursor.dfy`: object names and sidecars, deleting and pruning, the
  chunked-writer lifecycle, the capped pump, and paged listing.
- `PageStreams.dfy`: frames from a page engine to the one consumer of a stream.
- `CallBudget.dfy`: the D1 call tally that the handles of a Cloudflare
  invocation share, with calls reserved for its audit row.
- `ExportHistory.dfy`: the protocol told by the steps of a run alone: what each
  scope's end decides, how each request is answered, what a reopened worker has.
- `WriteDurability.dfy`: the write verdict and the export protocol together,
  for a write outside every scope.
- `Prelude.dfy`: `Option`, `Result`, bytes, and concatenation of chunks.

Classes follow the code that updates state in place. Each method is proved to
change the state as a function on values says, and the properties are proved
of those functions, over all inputs and all runs.

## Where the code and its promises differ

The model follows the code. Each of these is stated as an exact condition:

- `delete_folder` on a name that is a file removes that file, but the cache
  forgets only what lies below the name, so the object stays served, or the
  content type does when the name is an object's sidecar.
  `FolderRemoveKeepsIff` is the condition, for a removal at any moment and with
  any requests in flight; `SpoiledReadGoesStale` and `SpoiledPutGoesStale` show
  the requests in flight that cache stale bytes, `DeletedFolderStillServed` the
  entry that stays. The next write of the object puts it right (`HealKeeps`).
- `in_transaction` promises all or nothing for any body, but a body is
  arbitrary SQL: embedded transaction control can tear it. `AtomicIff` gives
  the scan of the body's statements that decides it.
- A failed streamed write of a new key promises to leave nothing.
  `removeCreatedFiles` swallows a refused removal, so it leaves nothing exactly
  when both removals are accepted; an overwrite of an object that had no
  sidecar leaves an empty one exactly when the sidecar's file was created and
  then not written (`UploadLeaves`).
- Folder names are checked less than key segments, so a listing can show an
  object of a sub-folder under a key that no read accepts
  (`ListedKeyIsAKeyIff`, `ListedKeyNoReadAccepts`).
- The drain loop's running total saturates, so a cap of `usize::MAX` is never
  breached, even by a larger source (`WholeIffItFits`, `LargestCapIsPassed`).
- A resume offset is clamped to 32 bits on its way to the bridge, so a walk
  over more keys than that repeats a page (`CursorWalkIff`).

## Model

| member | source | states |
|---|---|---|
| `ExportProtocol.RepliesAreDurable` | crates/impresspress-browser/src/runtime.rs:159-195 | Main result. In every run of interleaved requests, writes (completed or dropped half-way), exports that may fail and crashes: if a scope's verdict lets the flow's own response out, every mutation that had ended when that scope did, whichever request made it, is whole in the OPFS image at every later point, and in the database reopened after a crash at that point |
| `ExportHistory.AnsweredIff` | crates/impresspress-browser/src/database.rs:203-210 | Main result. Over every run, told by its steps alone: a request is answered `Ok` if and only if it had nothing to wait for, or the call it waited for found the connection in no transaction and a write of the run committed it |
| `ExportHistory.ReplyIff` | crates/impresspress-browser/src/runtime.rs:159-195 | So the flow's own response goes out exactly then, and "could not be saved" otherwise; before initialization neither |
| `ExportHistory.EndScopeIff` | crates/impresspress-browser/src/flush_scope.rs:245-262 | Over every run, what a scope's end decides: answered at once if and only if no write began in it and every ended mutation is vouched for by an export seen to succeed; else joined to the last call if that is unseen and nothing has ended since; else a call of its own |
| `ExportHistory.RunTracks` | crates/impresspress-browser/src/flush_scope.rs:113-191 | Over every run the cells, the queue and every export are what an account of the calls, turns, outcomes and ends says: in particular `EXPORTED_THROUGH` is exactly the most a successful export seen so far vouches for |
| `ExportHistory.ResolveCells` | crates/impresspress-browser/src/flush_scope.rs:164-176 | Seeing an outcome clears the slot if and only if it is the last call's, and raises the exported-through epoch exactly on success |
| `ExportHistory.WaitingIsAnswered` | crates/impresspress-browser/js/bridge.js:208-216 | From any reachable state, whatever has failed, the exports' own steps lead every waiting request to its answer: `Ok` unless its own export has failed or was not clean |
| `ExportHistory.ReopenedIsTheLastCommitted` | crates/impresspress-browser/js/bridge.js:224-235 | Over every run: the file holds what memory held when the snapshot last committed was taken, and a worker that reopens it has that and no more |
| `ExportHistory.WholeIsEveryStatement` | crates/impresspress-browser/src/flush_scope.rs:113-132 | What an image must hold to hold a mutation whole is every statement the run had it run, crashes or not |
| `ExportProtocol.VerdictVouches` | crates/impresspress-browser/src/flush_scope.rs:245-262 | The epoch rule: an `Ok` verdict vouches for every mutation ended before the scope's end, whether the scope skipped the flush, joined an export in flight or called its own |
| `ExportProtocol.VouchedSurvives` | crates/impresspress-browser/src/flush_scope.rs:137-186 | What was vouched for is in the image after any further steps, and in memory after any crash and reopen |
| `ExportProtocol.RunKeeps` | crates/impresspress-browser/src/flush_scope.rs:113-191 | The protocol invariant holds in every reachable state: `EXPORTED_THROUGH` never exceeds what the image holds, an export's `covers` never exceeds what its snapshot will hold, and only the head of the queue is past its turn |
| `ExportProtocol.StepKeeps` | crates/impresspress-browser/src/flush_scope.rs:113-191 | Each of the twelve steps keeps that invariant |
| `ExportProtocol.FlushKeeps` | crates/impresspress-browser/src/flush_scope.rs:151-186 | Awaiting the covering export, or calling a new one, keeps the invariant: what the waiting request owes is covered |
| `ExportProtocol.ExportSteps` | crates/impresspress-browser/js/bridge.js:224-235 | Taking the snapshot, committing it and failing keep the invariant and take nothing back |
| `ExportProtocol.OnlyHeadWrites` | crates/impresspress-browser/js/bridge.js:208-212 | Snapshot-to-commit windows never overlap: only the oldest unsettled call is writing |
| `ExportProtocol.ImageOnlyAdvances` | crates/impresspress-browser/js/bridge.js:208-235 | Over every run, crashes included, the image is never replaced by an older snapshot, and no verdict is taken back |
| `ExportProtocol.FailureUnblocks` | crates/impresspress-browser/js/bridge.js:208-216 | An unsettled export can fail at any point; the image is unchanged and the next call can take its snapshot at once |
| `ExportProtocol.FinishedStays` | crates/impresspress-browser/src/flush_scope.rs:245-262 | Until the worker dies, a finished request waits on and answers for the same mutations |
| `ExportProtocol.UnscopedCallsItsOwn` | crates/impresspress-browser/src/database.rs:264-275 | A write outside every scope always calls an export of its own: none called before its end counts as covering it |
| `ExportProtocol.WritesAreDurable` | crates/impresspress-browser/src/database.rs:264-275 | Main result. When the flush of a write outside every scope answers `Ok`, that write, and every mutation ended before it, is whole in the OPFS image at every later point, and in the database reopened after a crash there |
| `ExportProtocol.UnscopedVouches` | crates/impresspress-browser/src/database.rs:264-275 | That `Ok` vouches for the write itself and for every mutation ended before it |
| `ExportProtocol.OneExportEach` | crates/impresspress-browser/src/flush_scope.rs:245-262 | Coalescing: between crashes, over every run, a request or an unscoped write calls at most one export, however many mutations it made |
| `ExportProtocol.FinishedCallsNone` | crates/impresspress-browser/src/flush_scope.rs:245-262 | Once a request's verdict is due it calls no export any more |
| `WriteDurability.LogicalWriteIsDurable` | crates/impresspress-browser/src/database.rs:156-300 | Framing and export put together: a write outside every scope that answers `Ok` left no transaction open, committed all it wrote (when its probe settled the connection and its statements succeeded), and is whole in the image at every later point and after any crash and reopen |
| `ExportProtocol.EndScopeDecides` | crates/impresspress-browser/src/flush_scope.rs:245-262 | A scope's end in the protocol is the decision the scope's cells make |
| `FlushScopes.RequestsOweTheirOwn` | crates/impresspress-browser/src/flush_scope.rs:195-233 | Main result. Over any interleaving of the polls of any number of requests, nested scopes and unwinding included, the scopes that owe a flush are exactly the top-level scopes of the requests one of whose polls reached a mutation |
| `FlushScopes.OnePollCharges` | crates/impresspress-browser/src/flush_scope.rs:219-233 | One poll of the executor charges its own request, if it reaches a mutation, and no other |
| `FlushScopes.PlayKnows` | crates/impresspress-browser/src/flush_scope.rs:245-247 | A poll opens only scopes of its own request, and each joins the outermost one: along a run, no scope ever belongs to another request |
| `FlushScopes.OutermostOwes` | crates/impresspress-browser/src/flush_scope.rs:195-233 | Within one poll: every mutation it reaches, however deep, is charged to the outermost scope, and what the unwinding skipped is charged to nobody |
| `FlushScopes.ScopeEndDecides` | crates/impresspress-browser/src/flush_scope.rs:245-262 | A scope skips the flush exactly when it owes none and nothing is unexported; it starts an export (never two) exactly when it must flush and none in flight covers the epoch; what it awaits was called no earlier than the last mutation's end |
| `FlushScopes.LoadedOwesNothing` | crates/impresspress-browser/src/flush_scope.rs:137-140 | A database just loaded from disk owes no flush, and a scope over it makes none |
| `FlushScopes.NotedIfReached` | crates/impresspress-browser/src/flush_scope.rs:195-203 | A mutation the poll reaches before any unwinding, in itself or in a scope inside it, is noted |
| `FlushScopes.NotNotedIfNone` | crates/impresspress-browser/src/flush_scope.rs:195-203 | A poll that reaches none notes none |
| `FlushScopes.Play` | crates/impresspress-browser/src/flush_scope.rs:219-233 | The polls' effect with no shared cell: owners never change once set, and no owed flag is ever cleared |
| `FlushScopes.FlushScope.StartFlush` | crates/impresspress-browser/src/flush_scope.rs:151-186 | Reuses the export in flight exactly when it covers the epoch; otherwise starts one that covers it, under a new id |
| `FlushScopes.FlushScope.FinishFlush` | crates/impresspress-browser/src/flush_scope.rs:164-176 | Raises the exported-through epoch only on success and never lowers it; clears the slot only if it is still this export's |
| `FlushScopes.FlushScope.NoteMutation` | crates/impresspress-browser/src/flush_scope.rs:195-203 | Marks the current scope and no other; says whether there was one |
| `FlushScopes.FlushScope.OpenRun` | crates/impresspress-browser/src/flush_scope.rs:245-247 | A scope opened inside another joins it; otherwise it owns a new flag |
| `FlushScopes.FlushScope.Poll` | crates/impresspress-browser/src/flush_scope.rs:205-233 | The flag current after a poll is the one before it, however the inner poll ends, and what the cell-driven poll did is what `Play` says with no cell |
| `FlushScopes.FlushScope.RunActs` | crates/impresspress-browser/src/flush_scope.rs:219-233 | The same for the inner future's own code, nested scopes and panics included |
| `FlushScopes.FlushScope.FinishRun` | crates/impresspress-browser/src/flush_scope.rs:252-261 | A joined scope leaves the flush to its outer one; a top-level one decides as `ScopeEndDecides` describes |
| `RecencyList.InsertAdmitted` | crates/impresspress-browser/src/storage_cache.rs:227-254 | An admitted object is held, most recent, the total is within budget, and exactly the shortest least recently used prefix of the others was evicted for it |
| `RecencyList.EvictIsShortestPrefix` | crates/impresspress-browser/src/storage_cache.rs:248-253 | Eviction drops the shortest front prefix that meets the budget |
| `RecencyList.KeptNewest` | crates/impresspress-browser/src/storage_cache.rs:223-254 | Eviction stops before the object just inserted |
| `RecencyList.FindAfterInsert` | crates/impresspress-browser/src/storage_cache.rs:227-254 | After an insertion a lookup finds the object if it is within both limits, nothing for its path if not, and for every other path what was held before or nothing - what was held before, if there was nothing to make room for |
| `RecencyList.FindAfterGet` | crates/impresspress-browser/src/storage_cache.rs:152-162 | A hit only reorders: every lookup answers as before |
| `RecencyList.HitIsMostRecent` | crates/impresspress-browser/src/storage_cache.rs:151-162 | A hit moves the object to the most recent end; the others close up in their order, and nothing else changes |
| `RecencyList.HitIsDroppedLast` | crates/impresspress-browser/src/storage_cache.rs:151-254 | What recency is for: after a hit on an object, an insertion of another drops it only if it drops everything held before |
| `RecencyList.WithoutIs` | crates/impresspress-browser/src/storage_cache.rs:276-281 | Removing the one item of a path closes the gap and moves nothing |
| `RecencyList.WithoutFolderIsAFilter` | crates/impresspress-browser/src/storage_cache.rs:261-272 | A folder's removal goes item by item: what stays keeps its order |
| `RecencyList.ReadIsCachedIff` | crates/impresspress-browser/src/storage_cache.rs:172-183 | A read is cached, if it fits, exactly when its ticket is current; a stale one changes nothing |
| `RecencyList.WriteIsCachedIff` | crates/impresspress-browser/src/storage_cache.rs:208-221 | A finished write is cached, if it fits, exactly when nothing was reported since its ticket; otherwise it drops its own path and no other |
| `RecencyList.ReportDropsIt` | crates/impresspress-browser/src/storage_cache.rs:188-192 | A report of a path drops that path and no other, and makes every older ticket stale |
| `RecencyList.FolderReportDropsIt` | crates/impresspress-browser/src/storage_cache.rs:196-200 | A report of a folder drops what lies below it and nothing else, and makes every older ticket stale |
| `RecencyList.HeldWithinTotal` | crates/impresspress-browser/src/storage_cache.rs:82-90 | The object bytes held and the overhead of every entry are within the total charged, hence within the budget |
| `RecencyList.OperationsKeepPrices` | crates/impresspress-browser/src/storage_cache.rs:227-254 | Every operation keeps every item charged what it costs |
| `RecencyList.WithoutFacts` | crates/impresspress-browser/src/storage_cache.rs:276-281 | Removing a path leaves exactly the other items, still distinct |
| `RecencyList.WithoutFolderFacts` | crates/impresspress-browser/src/storage_cache.rs:261-272 | Removing a folder leaves exactly the items not below it, still distinct |
| `ReadCaching.OneLiveRecord` | crates/impresspress-browser/src/storage_cache.rs:112-150 | Each entry has exactly one live record in the queue; any other record of its path is dead |
| `ReadCaching.ItemsAreEntries` | crates/impresspress-browser/src/storage_cache.rs:112-150 | The list the queue stands for holds each entry once and nothing else |
| `ReadCaching.FindIsEntry` | crates/impresspress-browser/src/storage_cache.rs:152-162 | Looking a path up in the map and in the recency list agree |
| `ReadCaching.RetainKeepsItems` | crates/impresspress-browser/src/storage_cache.rs:302-309 | Compaction drops exactly the dead records and changes nothing the list says |
| `ReadCaching.ItemCount` | crates/impresspress-browser/src/storage_cache.rs:302-309 | A compacted queue is no longer than there are entries, so the length bound holds after it |
| `ReadCaching.AfterHit` | crates/impresspress-browser/src/storage_cache.rs:152-162 | Restamping an entry and recording it at the back moves it to the most recent end of the list |
| `ReadCaching.AfterDrop` | crates/impresspress-browser/src/storage_cache.rs:276-281 | Dropping an entry kills its record where it stands; the charge still equals the sum |
| `ReadCaching.AfterLivePop` | crates/impresspress-browser/src/storage_cache.rs:283-296 | A live record popped off the front, with its entry, is the list's least recently used item |
| `ReadCaching.ReadCache.GetCached` | crates/impresspress-browser/src/storage_cache.rs:152-162 | Refines the list's `Get`; returns the value last inserted for the path, or nothing |
| `ReadCaching.ReadCache.InsertReadBytes` | crates/impresspress-browser/src/storage_cache.rs:172-183 | Refines the list's `InsertRead`: nothing is cached once the epoch has moved past the ticket |
| `ReadCaching.ReadCache.InvalidateKey` | crates/impresspress-browser/src/storage_cache.rs:188-192 | Refines the list's `Invalidate`: the path is gone, the epoch is one later, and that is the ticket |
| `ReadCaching.ReadCache.InvalidateAllUnder` | crates/impresspress-browser/src/storage_cache.rs:196-200 | The same for every path below a folder |
| `ReadCaching.ReadCache.InsertWrittenBytes` | crates/impresspress-browser/src/storage_cache.rs:208-221 | Refines the list's `InsertWritten`: always advances the epoch and drops the path, and caches only when undisturbed since the ticket |
| `ReadCaching.ReadCache.InsertBytes` | crates/impresspress-browser/src/storage_cache.rs:227-254 | Refines the list's `Insert`, refusals included; the charge ends within budget and the queue within its bound |
| `ReadCaching.ReadCache.PushEntry` | crates/impresspress-browser/src/storage_cache.rs:240-247 | The admitted object joins the queue at the back with its charge counted |
| `ReadCaching.ReadCache.EvictToBudget` | crates/impresspress-browser/src/storage_cache.rs:248-253 | The eviction loop ends, within budget, having done to the list what its `Evict` does |
| `ReadCaching.ReadCache.EvictOne` | crates/impresspress-browser/src/storage_cache.rs:283-296 | Drops exactly the least recently used item and shortens the queue |
| `ReadCaching.ReadCache.RemoveAllUnder` | crates/impresspress-browser/src/storage_cache.rs:261-272 | Drops exactly the items below the folder, whatever order the map yields them in |
| `ReadCaching.ReadCache.RemovePath` | crates/impresspress-browser/src/storage_cache.rs:276-281 | Drops exactly the path, keeping charge and queue bound |
| `ReadCaching.ReadCache.Compact` | crates/impresspress-browser/src/storage_cache.rs:302-309 | The queue is within `2 * entries + 16` afterwards and the list it stands for is the same |
| `CacheCoherence.HitEqualsMiss` | crates/impresspress-browser/src/storage.rs:369-432 | Main result. Over every interleaving of reads, puts, streamed puts, deletes and folder deletes since the worker started, an object that is cached and has no write in flight is answered by a hit exactly as an uncached read would answer it, unless a `delete_folder` has taken a file of its own from under the cache and no write has reported it since |
| `CacheCoherence.NoFileTakenStands` | crates/impresspress-browser/src/storage.rs:647-654 | A condition on the files alone that is enough: no removal along the run takes, as a folder, the object's file or a sidecar with a content type of its own |
| `CacheCoherence.RunKeeps` | crates/impresspress-browser/src/storage.rs:369-432 | The invariant of a path holds in every reachable state in which it stands, whatever was done to it before its last report |
| `CacheCoherence.StepKeeps` | crates/impresspress-browser/src/storage.rs:369-654 | Each of the seventeen steps keeps it, for every path it does not spoil |
| `CacheCoherence.HealKeeps` | crates/impresspress-browser/src/storage_cache.rs:185-200 | A report of the path, in any state, sound or not, voids every older ticket and what was held of it: it is right again |
| `CacheCoherence.FolderRemoveKeepsIff` | crates/impresspress-browser/js/bridge.js:576-585 | A recursive removal, partial or complete, in any reachable state and with any requests in flight, keeps the path right if and only if it takes no file of it that an entry at rest, or a read or put with a current ticket, counts on |
| `CacheCoherence.SpoiledReadGoesStale` | crates/impresspress-browser/src/storage.rs:404-432 | A read in flight across such a removal finishes by caching what OPFS no longer has, if the cache has room for the object |
| `CacheCoherence.SpoiledPutGoesStale` | crates/impresspress-browser/src/storage.rs:369-400 | So does a put in flight across it |
| `CacheCoherence.WriteRuns` | crates/impresspress-browser/src/storage.rs:542-553 | OPFS may change under a write in flight in any way that stays on what it reported |
| `CacheCoherence.WriteEnds` | crates/impresspress-browser/src/storage_cache.rs:185-200 | A write's trailing report voids the path again, so no read that overlapped it is cached |
| `CacheCoherence.GetDoneKeeps` | crates/impresspress-browser/src/storage.rs:404-432 | A read is cached only if no write started or ended since its ticket: then what it read is still what OPFS holds |
| `CacheCoherence.PutDoneKeeps` | crates/impresspress-browser/src/storage.rs:369-400 | A put is cached only if nothing else started or ended since its ticket: then OPFS holds its bytes or another write is in flight |
| `CacheCoherence.DeleteFolderRuns` | crates/impresspress-browser/src/storage.rs:647-654 | A whole `delete_folder` with nothing in between, and a complete removal, is an allowed run and ends where the next two rows say |
| `CacheCoherence.DeleteFolderCoherentIff` | crates/impresspress-browser/src/storage.rs:647-654 | For a whole call: a cached object at rest stays coherent across a `delete_folder` if and only if it is not the file so named and does not keep a content type of its own in the file so named |
| `CacheCoherence.DeletedFolderStillServed` | crates/impresspress-browser/src/storage.rs:647-654 | Counterexample: any cached object whose own name is deleted as a folder is gone from OPFS and still served |
| `CacheCoherence.PutIsCached` | crates/impresspress-browser/src/storage.rs:369-400 | In any state, a put that nothing disturbs leaves its object and sidecar in OPFS and, if there is room, cached |
| `CacheCoherence.GetIsCached` | crates/impresspress-browser/src/storage.rs:404-432 | A read that misses and that nothing disturbs is cached, if there is room, as OPFS answered it |
| `CacheCoherence.HitStaysInside` | crates/impresspress-browser/src/storage.rs:404-412 | A read that hits goes no further than the cache, and every lookup answers as before |
| `Transactions.AtomicIff` | crates/impresspress-browser/src/database.rs:600-625 | `in_transaction` applies all of its body on `Ok` and none on `Err`, under every pattern of refusals and self-rollbacks, if and only if a scan of the body's statements finds no embedded transaction control that parts its writes |
| `Transactions.SendsByTranscript` | crates/impresspress-browser/src/database.rs:600-667 | Whatever the world refuses, a transaction sends and answers by one transcript: `Ok` is `BEGIN`, the whole body and `COMMIT`, each accepted; a nested `BEGIN` is rolled back; otherwise the first refusal is followed by one `ROLLBACK`, or by a second when the first left the transaction in doubt, and these say whether the failure is reported as it is or as stuck |
| `Transactions.AtomicUnlessParts` | crates/impresspress-browser/src/database.rs:600-625 | The forward half, for every world of faults and any state of the connection |
| `Transactions.TornIfParts` | crates/impresspress-browser/src/database.rs:600-625 | The other half: a world that tears a body the scan finds |
| `Transactions.NoControlNeverParts` | crates/impresspress-browser/src/database.rs:471-481 | A body without transaction control is never such a body |
| `Transactions.WholeBody` | crates/impresspress-browser/src/database.rs:600-607 | A body that does not part commits nothing on its own and keeps every write pending in the transaction |
| `Transactions.PartingRuns` | crates/impresspress-browser/src/database.rs:600-607 | A parting body, accepted, commits early or ends holding fewer writes than it made |
| `Transactions.LeftOpenOnlyIfStuck` | crates/impresspress-browser/src/database.rs:600-667 | `Ok` only from and to a connection in no transaction; one left open after a clean start is reported stuck, and stuck means two `ROLLBACK`s in a row were refused for reasons of their own |
| `Transactions.LeftOpenMeansNoRollback` | crates/impresspress-browser/src/database.rs:600-667 | When the connection is left in a transaction, whatever the body, every `ROLLBACK` of the framing was refused with a text other than "no transaction is active"; so every one sent was, exactly when the body's own were |
| `Transactions.OpCommits` | crates/impresspress-browser/src/database.rs:156-190 | From a settled connection, an operation that succeeds has committed all it wrote and leaves no transaction open |
| `Transactions.WriteVerdict` | crates/impresspress-browser/src/database.rs:156-300 | What a logical write's answer means on the connection, and when it is given: `Ok` if and only if the operation said so, the closing `ROLLBACK` was refused as having nothing to roll back, and in a scope or with a written export; then nothing was undone and, if the probe settled the connection and the statements succeeded, all it wrote is committed; a left-open transaction is always an error, and the operation's error beats the flush's |
| `Transactions.AcceptedWriteIsOk` | crates/impresspress-browser/src/database.rs:156-300 | Nothing refused, a plain operation that says it succeeded, and a scope or a written export: the write answers `Ok` with everything it wrote committed, even over a transaction someone left open |
| `Transactions.Connection.BeginTransaction` | crates/impresspress-browser/src/database.rs:629-648 | A nested `BEGIN` is rolled back and refused all the same |
| `Transactions.Connection.RollbackTransaction` | crates/impresspress-browser/src/database.rs:652-667 | Two attempts at most; says whether the transaction is known to be gone |
| `Transactions.Connection.RunTransaction` | crates/impresspress-browser/src/database.rs:600-625 | The statement-by-statement framing computes what the atomicity results are about |
| `Transactions.Connection.EndOpenTransaction` | crates/impresspress-browser/src/database.rs:245-254 | The `ROLLBACK` is the question: whether a transaction was open, and it is gone, or why that is not known |
| `Transactions.Connection.SettleTransaction` | crates/impresspress-browser/src/database.rs:215-225 | Clean exactly when the question is answered with no transaction open |
| `Transactions.Connection.RunOperation` | crates/impresspress-browser/src/database.rs:156-190 | An operation's statements and transactions in turn, up to the first that fails |
| `Transactions.Connection.FlushThroughBridge` | crates/impresspress-browser/src/database.rs:203-210 | The export is called whatever the check found, after it; the flush is `Ok` only when both are |
| `Transactions.Connection.LogicalWrite` | crates/impresspress-browser/src/database.rs:156-300 | Outside a scope exactly one export is called, whatever the operation and the check answered, and only once every statement of the write has been sent; in a scope none is |
| `ObjectTree.DeleteRemovesTheKey` | crates/impresspress-browser/js/bridge.js:436-448 | Deleting a key is refused with the tree untouched unless its own entry can go; otherwise exactly that key leaves the listing, with its sidecar and no other file, no directory on its path is left empty and none off it goes |
| `ObjectTree.DeleteShape` | crates/impresspress-browser/js/bridge.js:436-484 | The files, directories and shape of the tree after a delete |
| `ObjectTree.PruneSpec` | crates/impresspress-browser/js/bridge.js:470-484 | Pruning removes, deepest first, exactly the empty directories of the path and stops at the first that holds something; the storage folder itself stays |
| `ObjectTree.PrunedHeldNothing` | crates/impresspress-browser/js/bridge.js:470-484 | A directory pruning removed held nothing but the next one on the path |
| `ObjectTree.NoneLeftEmpty` | crates/impresspress-browser/js/bridge.js:470-484 | No directory of the pruned path that remains is empty |
| `ObjectTree.PruneKeepsShape` | crates/impresspress-browser/js/bridge.js:470-484 | Pruning leaves a tree in which every entry has its directory |
| `ObjectTree.PutIff` | crates/impresspress-browser/js/bridge.js:366-384 | A put goes through if and only if no name it needs is taken by the other kind of entry; then the key's directories, its object and its sidecar are there, with everything that was and nothing else |
| `ObjectTree.PutKeepsShape` | crates/impresspress-browser/js/bridge.js:366-384 | A put that goes through leaves a tree in which every entry has its directory |
| `ObjectTree.PutAddsTheKey` | crates/impresspress-browser/js/bridge.js:366-384 | A put that goes through adds exactly its key to the listing: its sidecar is not listed |
| `ObjectTree.PutThenDelete` | crates/impresspress-browser/js/bridge.js:366-448 | A key put is there to delete, and deleting it takes both its files with it |
| `ObjectTree.Folder.StoragePut` | crates/impresspress-browser/js/bridge.js:366-384 | The in-place put refuses invalid keys and otherwise does to the tree what the put results are about |
| `ObjectTree.Unlisted` | crates/impresspress-browser/js/bridge.js:525-542 | With the object's file gone the listing loses its key and no other |
| `ObjectTree.JoinInjective` | crates/impresspress-browser/js/bridge.js:525-542 | No two files of a folder are listed under one key |
| `ObjectTree.Folder.Remove` | crates/impresspress-browser/js/bridge.js:436-484 | `removeEntry`: a file, or a directory that is empty; anything else is refused and nothing changes |
| `ObjectTree.Folder.StorageDelete` | crates/impresspress-browser/js/bridge.js:436-448 | The in-place delete refuses invalid keys and otherwise does to the tree what the delete results are about |
| `ObjectTree.Folder.PruneEmptyDirs` | crates/impresspress-browser/js/bridge.js:470-484 | The in-place loop computes the pruning that `PruneSpec` characterizes |
| `ChunkedWrites.UploadLeaves` | crates/impresspress-browser/js/bridge.js:1541-1696 | Success leaves the concatenated chunks under a sidecar with their total size; failure of a created key leaves neither file exactly when OPFS lets both go; an overwrite that fails before its close commits changes nothing, and one whose sidecar fails has the new bytes under the old sidecar or, where there was none, under an empty one exactly when its file was made first; no other object is touched |
| `ChunkedWrites.FateIff` | crates/impresspress-browser/src/storage.rs:304-346 | How far a write gets: it is done if and only if every item was a chunk, none was refused, the close committed and the sidecar was written; otherwise it fails at the first of these to go wrong |
| `ChunkedWrites.StreamedFrom` | crates/impresspress-browser/src/storage.rs:304-346 | Whatever its fate, a started write ends as closing or discarding its writer leaves it |
| `ChunkedWrites.BodyIsChunks` | crates/impresspress-browser/src/storage.rs:326-339 | The bytes handed to the writer are the chunks put together, in order |
| `ChunkedWrites.FinishedMeansChunks` | crates/impresspress-browser/src/storage.rs:326-346 | A write reaches its close only if every item was a chunk |
| `ChunkedWrites.Registry.Start` | crates/impresspress-browser/js/bridge.js:1541-1565 | A new id, a writer that remembers whether its key was created, and the empty file that creation leaves |
| `ChunkedWrites.Registry.WriteChunk` | crates/impresspress-browser/js/bridge.js:1575-1582 | An accepted chunk goes to this writer's swap file and to its size; a refused one changes nothing |
| `ChunkedWrites.Registry.Finish` | crates/impresspress-browser/js/bridge.js:1600-1639 | The writer is unregistered on every path; the object is replaced only by a close that commits, and the created files go when a later step fails |
| `ChunkedWrites.Registry.DiscardWriter` | crates/impresspress-browser/js/bridge.js:1664-1676 | Idempotent: removes the files of a key this writer created, and only once |
| `ChunkedWrites.Registry.RemoveCreatedFiles` | crates/impresspress-browser/js/bridge.js:1685-1696 | Removes body and sidecar of a created key, as far as OPFS lets it; an overwritten key keeps both |
| `ChunkedWrites.Registry.StreamToOpfs` | crates/impresspress-browser/src/storage.rs:304-346 | On every path no writer of it stays registered and every other writer does; what it leaves and reports is what `UploadLeaves` speaks of |
| `DrainLoop.DrainInto` | crates/impresspress-browser/src/storage.rs:218-271 | The chunks forwarded are the source's, in order, up to the event that ended the loop, within the cap; the consumer is told that event - `Complete` if the source reported its end, a read error if it failed, the cap if a chunk would pass it, nothing after a cancellation or a drop - and the source is released exactly once unless it reported its end |
| `DrainLoop.WholeIffItFits` | crates/impresspress-browser/src/storage.rs:218-271 | For every cap: a stream is delivered whole exactly when it fits the cap or the cap is `usize::MAX`, which is none; otherwise the longest prefix of chunks that fits, and an error |
| `DrainLoop.LargestCapIsPassed` | crates/impresspress-browser/src/storage.rs:218-271 | Counterexample: with a cap of `usize::MAX` a source one byte larger is delivered whole |
| `DrainLoop.BreachIff` | crates/impresspress-browser/src/storage.rs:218-271 | The chunk that ends the loop is the first whose prefix does not fit the cap in force |
| `DrainLoop.ProducedIsPrefix` | crates/impresspress-browser/src/storage.rs:218-271 | What was forwarded is a prefix of the source's chunks |
| `PageStreams.FramesInOrder` | crates/impresspress-browser/js/bridge.js:829-966 | Main result. Over every run, told by its steps alone: on every stream the consumer has had exactly the frames its pulls were due, of those the page sent while the stream stood and the error a lost page or a cancel adds, in order and without a gap, up to the first terminal one, after which the entry is gone; a pull that is out has its frame as soon as there is one; and a request is watched, and the timer set, exactly while it can still end |
| `PageStreams.RunTraces` | crates/impresspress-browser/js/bridge.js:885-966 | Over every run a stream's entry is what its steps say |
| `PageStreams.TakeTraces` | crates/impresspress-browser/js/bridge.js:920-935 | A pull with no other pull out gets the next frame sent, if there is one, and waits if there is none |
| `PageStreams.StepKeeps` | crates/impresspress-browser/js/bridge.js:829-966 | Each step (open, frame, pull, resume, page loss, cancel, one-shot requests) keeps the invariant of the hub |
| `PageStreams.TerminalEnds` | crates/impresspress-browser/js/bridge.js:920-935 | A consumer that got a terminal frame got everything up to the first one pushed, and nothing after it |
| `PageStreams.UpToTerminalIs` | crates/impresspress-browser/js/bridge.js:920-935 | The prefix up to the first terminal frame, by position |
| `PageStreams.PageHub.UnwatchPage` | crates/impresspress-browser/js/bridge.js:834-840 | The timer is cleared with the last request |
| `PageStreams.PageHub.Open` | crates/impresspress-browser/js/bridge.js:908-914 | A new stream with nothing in it, watched |
| `PageStreams.PageHub.CompleteStreamFrame` | crates/impresspress-browser/js/bridge.js:959-966 | Routes a frame as `RouteKeeps` describes |
| `PageStreams.PageHub.NextFrame` | crates/impresspress-browser/js/bridge.js:920-935 | Delivers exactly the oldest queued frame, or registers the one waiter; a stream with no entry answers the caller's error and changes nothing |
| `PageStreams.PageHub.ResumeNextFrame` | crates/impresspress-browser/js/bridge.js:920-935 | A pull that had to wait delivers exactly the frame it was given |
| `PageStreams.PageHub.CheckEngineHost` | crates/impresspress-browser/js/bridge.js:843-853 | A request whose page is gone is unwatched and its stream ended with an error |
| `PageStreams.PageHub.CancelStream` | crates/impresspress-browser/js/bridge.js:941-956 | The stream is unwatched, ended and removed; an unknown one is left alone |
| `CallBudget.ReservedCallsAdmitted` | crates/impresspress-cloudflare/src/database.rs:391-456 | With `r` calls reserved before any is sent, in every interleaving the request handles send at most what the limit leaves and each of the reserved work's first `r` calls is admitted when it is offered |
| `CallBudget.ReservationStands` | crates/impresspress-cloudflare/src/database.rs:437-443 | From any accounted state, while the reservation stands the tally passes the request's ceiling only by calls of the reserved work |
| `CallBudget.AlwaysAccounted` | crates/impresspress-cloudflare/src/database.rs:446-482 | Whatever is reserved and released, the total never exceeds the limit and the reported cost is the true one, saturating |
| `CallBudget.ReleasedHandlesUseTheRest` | crates/impresspress-cloudflare/src/database.rs:397-399 | Once released, whatever was reserved, the request handles can send exactly the rest of the limit |
| `CallBudget.HandlesUseWhatIsLeft` | crates/impresspress-cloudflare/src/database.rs:437-539 | In any state, of the calls a handle offers exactly as many are admitted as the limit has left, less what is reserved if it is a request's |
| `CallBudget.D1CallCount.ForReservedWork` | crates/impresspress-cloudflare/src/database.rs:403-408 | Another handle on the same tally, allowed to use the reservation |
| `CallBudget.D1CallCount.SpendCall` | crates/impresspress-cloudflare/src/database.rs:526-539 | Admits a call exactly when the handle's view of the limit has one left, and counts it then only |
| `CallBudget.D1CallCount.MeterResult` | crates/impresspress-cloudflare/src/database.rs:457-482 | Adds a result that reports either row figure to the cost, and no other |
| `StoragePaths.SplitThenJoin` | crates/impresspress-browser/js/bridge.js:291-303 | A key that splits joins back to itself |
| `StoragePaths.JoinThenSplit` | crates/impresspress-browser/js/bridge.js:291-303 | Valid directories and a valid leaf join to a key that splits back to them |
| `StoragePaths.SidecarIsNeverASegment` | crates/impresspress-browser/js/bridge.js:306-313 | No sidecar name is a valid segment, so a sidecar can neither be addressed as an object nor hide one |
| `StoragePaths.OrdinaryNamesAreSegments` | crates/impresspress-browser/js/bridge.js:266-288 | An alphanumeric name is a valid segment, with an extension or without |
| `StoragePaths.RefusedNames` | crates/impresspress-browser/js/bridge.js:266-288 | No empty or dot name is one, no name with a separator of either kind or a control character, and no sidecar's |
| `StoragePaths.NamesHaveAFile` | crates/impresspress-browser/js/bridge.js:322-332 | A folder and a key of valid names are an object, in the directories they name |
| `StoragePaths.SamePathIffSameFile` | crates/impresspress-browser/src/storage_cache.rs:128-130 | Two (folder, key) pairs share a cache entry exactly when they name the same OPFS file |
| `StoragePaths.OpfsFileIsSplitPath` | crates/impresspress-browser/js/bridge.js:322-332 | An object's OPFS location is its cache path, split |
| `StoragePaths.UnderIffSegmentsExtend` | crates/impresspress-browser/src/storage_cache.rs:261-272 | The textual `starts_with` test is the structural one: the path's segments extend the folder's |
| `StoragePaths.SidecarUnderIffObjectUnder` | crates/impresspress-browser/src/storage_cache.rs:261-272 | A sidecar is below a folder exactly when its object is |
| `StoragePaths.ListedKeyIsAKeyIff` | crates/impresspress-browser/js/bridge.js:525-542 | A key listed from a sub-folder can be read exactly when every name between the two folders is a valid segment |
| `StoragePaths.ListedKeyNoReadAccepts` | crates/impresspress-browser/js/bridge.js:322-332 | Such names exist: beside any folder there is one a put accepts, whose objects the outer listing shows under keys no read accepts |
| `StoragePaths.SplitJoin` | crates/impresspress-browser/js/bridge.js:291-303 | Splitting undoes joining on every list of separator-free names |
| `StoragePaths.JoinSplit` | crates/impresspress-browser/js/bridge.js:291-303 | Joining undoes splitting on every text |
| `StoragePaths.SplitConcat` | crates/impresspress-browser/js/bridge.js:322-332 | Splitting distributes over a separator in the middle |
| `ListCursor.CursorWalkIff` | crates/impresspress-browser/src/storage.rs:567-635 | Main result. Following the tokens from the empty cursor yields the sorted key list, each key once, for every limit exactly when no page would start past the largest 32-bit offset; in particular whenever there are at most 2^32 keys |
| `ListCursor.OffsetPage` | crates/impresspress-browser/src/storage.rs:567-635 | Paging by offset with no cursor: from the offset, as many keys as the limit allows, with the full count and no token to go on with |
| `ListCursor.CursorPage` | crates/impresspress-browser/src/storage.rs:567-581 | A cursor decides where a page starts, whatever the offset; a malformed one is an error |
| `ListCursor.WalkListsTheFolder` | crates/impresspress-browser/js/bridge.js:525-561 | Put together with the folder's tree: the walk reads exactly the objects that match the prefix, once each and in order, whatever order the iterator met them in |
| `ListCursor.SortedIsUnique` | crates/impresspress-browser/js/bridge.js:544-545 | A set of keys sorts to one list, without duplicates |
| `ListCursor.LessIsOneWay` | crates/impresspress-browser/js/bridge.js:544-545 | The comparison the sort uses is asymmetric |
| `ListCursor.LessIff` | crates/impresspress-browser/js/bridge.js:544-545 | The comparison is the lexicographic one: the first difference decides, and a proper prefix comes first |
| `ListCursor.NextIsLater` | crates/impresspress-browser/src/storage_cursor.rs:81-93 | The token a page carries names a later offset inside the list, so the walk ends |
| `ListCursor.WalkIsByOffsets` | crates/impresspress-browser/src/storage_cursor.rs:41-93 | For any faithful tokens, the walk by tokens is the walk by offsets |
| `ListCursor.TokensAreFaithful` | crates/impresspress-browser/src/storage_cursor.rs:41-65 | The cursors of this module are faithful tokens |
| `ListCursor.PageInRange` | crates/impresspress-browser/js/bridge.js:546 | A page in range is the keys from its start, and goes on where it ends |
| `ListCursor.PastRangeGoesBack` | crates/impresspress-browser/src/storage_cursor.rs:70-72 | A page past the range is read from the clamped offset and goes wrong |
| `ListCursor.WalkFrom` | crates/impresspress-browser/src/storage_cursor.rs:70-93 | The walk from any start is right exactly when no page starts past the range |
| `ListCursor.DecodeEncode` | crates/impresspress-browser/src/storage_cursor.rs:41-65 | `decode(encode(n)) == n` for every u64, and no token is the empty cursor |
| `ListCursor.TooLargeIsRefused` | crates/impresspress-browser/src/storage_cursor.rs:53-65 | An offset beyond u64 has a token, and the token is refused |
| `ListCursor.SignedIsRead` | crates/impresspress-browser/src/storage_cursor.rs:53-65 | A leading plus is read; nothing, a plus alone and anything that is no digit are refused |
| `ListCursor.KnownTokens` | crates/impresspress-browser/src/storage_cursor.rs:41-43 | Known encodings, in the alphabet and the unpadded form of section 5 of RFC 4648 |
| `ListCursor.DecodesIff` | crates/impresspress-browser/src/storage_cursor.rs:53-65 | The cursors that decode are exactly the empty one and the encodings of decimal numbers in range |
| `ListCursor.Decode64Encode64` | crates/impresspress-browser/src/storage_cursor.rs:41-43 | Unpadded base64url (section 5 of RFC 4648) decodes to what it encoded |
| `ListCursor.Encode64Decode64` | crates/impresspress-browser/src/storage_cursor.rs:53-65 | Only the encoding of some bytes decodes to them: one token, one text |
| `ListCursor.OctetsSextets` | crates/impresspress-browser/src/storage_cursor.rs:41-43 | Regrouping octets as sextets is undone by decoding |
| `ListCursor.SextetsOctets` | crates/impresspress-browser/src/storage_cursor.rs:53-65 | Regrouping what decodes restores the sextets, padding bits included |
| `ListCursor.DecimalValue` | crates/impresspress-browser/src/storage_cursor.rs:41-43 | The decimal text of a number parses to it and starts with no sign |

## Left out

- RepliesAreDurable: `dispatch_request` before the runtime is initialized, or when building the error response itself fails, hands back nothing of the flow and is only the `NotInitialized` case of `Dispatch`.
- HitEqualsMiss: says nothing of a path while it is spoiled, from a removal that took a file the cache counted on to the next report of the path, because coherence can be false there; an object too large for the cache to hold is counted as spoiled although a read or put of it in flight is then not cached.
- WriteDurability.LogicalWriteIsDurable: the framing knows a statement by its effect and the protocol by its mutation and index; that the two lists are of the same statements is how the lemma is read, not a hypothesis.
- Opening a second database in the middle of a run, and flushing while none is open: the protocol has one cold open, and crash and reopen.
- A stray `BEGIN` sent through the unflushed `query_raw` across another write's await: the protocol takes each export's settled-connection check as an input (`clean`) and lets no statement of an ended write be rolled back afterwards.
- The storage service's request methods are steps on values, not methods of a class: each is cut at its awaits and other requests run in between. The cache they drive is a class.
- A storage write future dropped between its two reports, and the overlap of an old and a new worker on one OPFS.
- Overflow of the cache's charge, stamps and epoch, and of the flush epochs and ids: unbounded naturals here. The call budget's counters saturate at 64 bits and the drain loop's total at 32, as in the code.
- The order in which the cache drops the paths of a removed folder: any order.
- Concurrent deletes, puts and prunes in one directory tree: one delete at a time.
- `createWritable()` failing after `storagePutStreamStart` created the file: the lifecycle starts once the writer is registered.
- The directory iterator and the sort of `storageList`: any enumeration sorts to the one list proved unique. Strings are compared by code point, not by UTF-16 unit. Sizes, and objects deleted between the walk and their size read, are not modelled.
- A store that changes in the middle of a cursor walk.
- The base64 library refuses set padding bits and a length no encoding has; that is taken from RFC 4648, as the library's code is not part of this model. UTF-8 checking of a decoded cursor is covered by its decimal parse, which refuses every byte that is no digit or leading plus.
- `get_streaming` and range reads: a hit is served from the same cache, a miss is not cached.
- Schema memoization, logging, error texts, HTTP conversion, wasm and serde marshalling.
- One-shot engine requests: only that they are watched and unwatched; their replies, and the choice of the page that serves them, are not modelled.
- Rows and SQL: a statement is known by its effect, and a body by its list of statements.
- Authentication, hashing, the SSRF gate, sandbox sections, asset builds and the engines' model loading: unrelated to durability.
