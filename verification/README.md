# wasmCat: a verified model of its stateful core

wasmCat is a master that dispatches WebAssembly executions to workers. This project models the parts of it that are
hard to get right and proves what they guarantee over every input, every interleaving and every reachable state:

- the worker's compiled-module cache and the protocol that coalesces cold compiles (`ModuleIdentity`, `ModuleCache`,
  `ModuleFetch`, `SingleFlight`, `CacheHistory`), and the cap on module output (`CappedOutput`);
- the durable job machine: job table, handlers, recovery loop, worker callbacks and master crashes (`JobStore`,
  `JobMachine`, `RecoveryFairness`, `StoreCalls`, `JobRecovery`, `Gateway`, `JobOwnership`, `JobLeases`,
  `JobLimits`);
- the in-memory request tracker and the handlers that share it (`RequestTracker`, `TrackerProtocol`,
  `TrackerRetention`);
- the worker registry, nearest-worker scheduling and dispatch with rescheduling (`Registry`, `Dispatch`);
- the HTTP retry loop (`HttpRetry`) and the container registry reference parser and printer (`AcrReference`).

`Bags` and `Text` hold sums over maps and the string functions that the others use. `dafny verify dfyconfig.toml`
checks everything.

Code that changes things in place is a class or a method with loops, proved against a specification on values
(`Cache`, `Jobs`, `Tracker`, `Workers`, `Buffer`). Concurrency is a transition system over the same specifications:
a section that holds a lock, an SQL statement, or an observation of a channel is one atomic step, and a run is any
sequence of steps. Times, downloads, dispatch results, forward outcomes, lost writes and crashes are arbitrary.
SHA-256, the WebAssembly compiler and the distance function are parameters.

Seven expected properties need a condition. Each is stated with its exact condition, and with a run or an input that
shows the condition is needed. What a step means is stated against the history of the run (when an entry was stored,
which mark came last, in which order things were used), and not against the functions that decide:

- A cache hit for a name and a digest is built from bytes with that digest if and only if no `@url:` or `@digest:` in
  the slot string can be read as the separator of another key that the engine would use (`HitHonestIff`, with the hash
  left open; `HonestRunsIff` for a given hash). For digests without `@` this means that the name holds no `@url:`
  without a space beside it (`PlainDigestAlias`); a digest that holds `@url:` between non-spaces is exposed
  whatever the name (`TagInDigestIsAlias`).
- A succeeded job stays succeeded, short of a failing report from a worker, if and only if no handler and no recovery
  batch still drives it (`SucceededIsFinalIff`). A failing report always overwrites, and the stored response is always
  kept (`FailingReportOverwrites`, `RunGrows`).
- The attempt bound holds for every ID that is never sent to `/api/v1/execute` (`AsyncAttemptsBounded`), and for every
  configuration and every request that is sent there some run exceeds it (`MixedDriversExceedMax`).
- Recovery turns no job ambiguous before the end of its latest lease, unless the row was marked again after the scan
  that listed it (`NotAmbiguousEarly`); for IDs never sent to `/api/v1/execute` that cannot happen
  (`AsyncNotAmbiguousEarly`), and for every configuration and request that is sent there some run shows it
  (`MarkedAgainIsAmbiguousEarly`).
- Rescheduling ends within one forward per worker if and only if every eligible worker's distance compares below the
  start value of the search (`ReschedulingEndsIff`); with a NaN distance the zero worker is selected, and dropping it
  drops no one.
- The blob URL of a layer parses back to the layer's digest if and only if the digest does not end in a slash
  (`BlobUrlRoundTrip`, `TrailingSlashIsLost`).
- The output buffer flags overflow if and only if the output is longer than the cap, or an empty write arrives when
  exactly the cap was written (`BufferMeaning`, `EmptyWriteOverflows`).

## Model

| member | source | states |
|---|---|---|
| `ModuleIdentity.VerifyTrimmed` | internal/worker/engine.go:499-524 | trimming the digest first, as the cache key does, never changes the verdict of the digest check |
| `ModuleIdentity.Sha256DigestIsChecked` | internal/worker/engine.go:499-524 | a digest of 64 hex digits after `sha256:`, in either case, is accepted exactly for bytes that hash to it, and mismatches otherwise |
| `ModuleIdentity.WellFormedHasNoAt` | internal/worker/engine.go:499-515 | a well-formed digest contains no `@` |
| `ModuleIdentity.AcceptedHasNoAt` | internal/worker/engine.go:499-524 | no bytes pass a digest that contains `@` |
| `ModuleIdentity.KeyStringSeparates` | internal/worker/engine.go:55-64 | for names without `@`, two keys share a cache slot exactly when they mean the same module |
| `ModuleIdentity.DigestSlotIsExclusive` | internal/worker/engine.go:55-64 | for every non-empty digest: a key that the engine could insert, with another digest or none, shares the slot exactly when some tag in the slot string leaves a trimmed name and a trimmed URL or well-formed digest |
| `ModuleIdentity.AliasFrom` | internal/worker/engine.go:55-64 | every such tag stands for such a key |
| `ModuleIdentity.AliasTo` | internal/worker/engine.go:55-64 | every such key puts such a tag in the slot |
| `ModuleIdentity.PlainDigestAlias` | internal/worker/engine.go:55-64 | for digests without `@` there is such a key exactly when the name holds a `@url:` with no space on either side |
| `ModuleIdentity.TagInDigestIsAlias` | internal/worker/engine.go:55-64 | a digest that holds `@url:` between non-spaces shares its slot with a key that has no digest, whatever the name |
| `ModuleIdentity.SpacedTagIsNoAlias` | internal/worker/engine.go:55-64 | a name that holds `@url:` after a space shares its slot with no one |
| `ModuleCache.NormalizeLimits` | internal/worker/limits.go:31-66 | each usable cache limit is kept, and each other one takes its documented default |
| `ModuleCache.RemoveShrinks` | internal/worker/engine.go:627-637 | removing an entry keeps the byte ledger exact, so the clamp at zero never fires, and closes exactly its handle |
| `ModuleCache.ShrinksConserves` | internal/worker/engine.go:583-637 | cached plus closed handles, and cached plus removed keys, are conserved by expiry and eviction |
| `ModuleCache.TouchKeepsLedger` | internal/worker/engine.go:535-553 | a lookup keeps the ledger and the LRU stamps distinct, and after a miss the key is absent |
| `ModuleCache.DropOldest` | internal/worker/engine.go:590-604 | dropping the least recently used entry of a suffix that does not fit loses no suffix that fits |
| `ModuleCache.LongestSuffixUnique` | internal/worker/engine.go:583-605 | eviction has at most one outcome |
| `ModuleCache.LongestSuffixExists` | internal/worker/engine.go:583-605 | eviction always has an outcome |
| `ModuleCache.NewEntrySurvives` | internal/worker/engine.go:202-217 | a newly inserted module survives its own insertion if and only if it fits the byte budget |
| `ModuleCache.WasmEngine.constructor` | internal/worker/engine.go:101-118 | a new engine has an empty cache, nothing in flight and normalized limits |
| `ModuleCache.WasmEngine.CachedCompiledModule` | internal/worker/engine.go:535-553 | hits exactly an entry created at most the TTL ago, refreshes its use and not its age, drops an older one, keeps the ledger |
| `ModuleCache.WasmEngine.BeginCompile` | internal/worker/engine.go:560-571 | exactly one caller of an absent key leads, with a fresh channel; others get the leader's channel |
| `ModuleCache.WasmEngine.FinishCompile` | internal/worker/engine.go:573-581 | closes and forgets the key's channel and no other |
| `ModuleCache.WasmEngine.OldestEntryLocked` | internal/worker/engine.go:611-625 | finds the entry with the strictly smallest use stamp, or reports an empty cache |
| `ModuleCache.WasmEngine.RemoveEntryLocked` | internal/worker/engine.go:627-637 | deletes one entry, subtracts its size with the clamp, closes its handle |
| `ModuleCache.WasmEngine.RemoveExpiredLocked` | internal/worker/engine.go:584-588 | leaves exactly the entries created at most the TTL ago, accounts settled |
| `ModuleCache.WasmEngine.EvictLocked` | internal/worker/engine.go:583-605 | leaves exactly the longest most-recently-used suffix of the unexpired entries that fits both budgets, accounts settled |
| `ModuleCache.WasmEngine.InsertCompiled` | internal/worker/engine.go:200-220 | stores a module and evicts, or closes the handle when the key exists |
| `ModuleCache.WasmEngine.ClearCache` | internal/worker/engine.go:136-145 | closes every cached handle once and zeroes the ledger |
| `ModuleFetch.FetchAndCacheWithDigest` | internal/worker/engine.go:151-223 | an undisturbed fetch hits, fails, waits in vain for another leader, or downloads, verifies and inserts, and leaves what is in flight as it was |
| `ModuleFetch.CompileAsLeader` | internal/worker/engine.go:189-222 | the leader inserts exactly an acceptable download, and otherwise leaves the cache alone |
| `ModuleFetch.FetchedIsCached` | internal/worker/engine.go:151-223 | after a successful fetch the module is cached exactly when it was a hit or fits the byte budget |
| `ModuleFetch.RepeatIsHit` | internal/worker/engine.go:151-164 | until it expires a cached module answers later fetches: nothing is downloaded, compiled or dropped |
| `ModuleFetch.UndisturbedFetch` | internal/worker/engine.go:151-223 | the sequential fetch of a key that no one leads, whatever it finds and downloads, is a run of the protocol |
| `SingleFlight.RunKeepsInv` | internal/worker/engine.go:151-223 | the protocol, ledger, handle and compile-count invariants hold in every reachable state |
| `SingleFlight.SingleFlightHolds` | internal/worker/engine.go:171-220 | a key is in flight exactly when one caller leads it; a waiting follower's channel is closed or owned by a leader; the "already exists" branch at insert is unreachable |
| `SingleFlight.LedgerHolds` | internal/worker/engine.go:136-145 | over all runs the byte ledger is the sum of the sizes, both budgets hold, stamps are distinct and at most the clock, every handle is in one place |
| `SingleFlight.ClosedOnce` | internal/worker/engine.go:627-637 | every compiled handle is cached, held by a leader, or closed exactly once |
| `SingleFlight.CompiledOnce` | internal/worker/engine.go:151-223 | a key is compiled again only after its entry was removed |
| `SingleFlight.LeaderStepsDescend` | internal/worker/engine.go:171-220 | a leader never waits: each of its steps lowers its rank, and the last one closes its channel |
| `SingleFlight.LeaderCanStep` | internal/worker/engine.go:190-220 | a leader always has a next step |
| `SingleFlight.WaitersWake` | internal/worker/engine.go:171-187 | from every reachable state, some continuation of at most four steps wakes a waiting follower |
| `SingleFlight.OthersLeaveLeader` | internal/worker/engine.go:560-581 | no step of anyone else moves a leader or takes its channel away |
| `SingleFlight.LeaderClosesInEveryRun` | internal/worker/engine.go:171-220 | in every schedule a leader that has taken as many steps as its rank has closed its channel, whatever was interleaved |
| `SingleFlight.WaitersWakeInEveryRun` | internal/worker/engine.go:171-187 | in every schedule a follower's channel is closed once one fixed leader has taken four steps: no orphaned wait, no deadlock |
| `SingleFlight.HitHasDigest` | internal/worker/engine.go:151-223 | in every reachable state a hit for a name and a digest whose slot has no alias is a module whose bytes pass that digest and the size limit |
| `SingleFlight.HitHonestIff` | internal/worker/engine.go:151-223 | with the hash left open, every hit in every run passes the requested digest exactly when the slot has no alias |
| `SingleFlight.HonestRunsIff` | internal/worker/engine.go:151-223 | for a given hash: exactly when there is no `@url:` alias and no `@digest:` alias whose digest some cacheable bytes have |
| `SingleFlight.ColdFetch` | internal/worker/engine.go:151-223 | an undisturbed cold fetch caches exactly what it downloaded |
| `CacheHistory.HitIffRecentlyStored` | internal/worker/engine.go:535-553 | in every run a lookup hits exactly when the slot was stored by an insertion at most the TTL ago and not removed since; lookups do not move that time |
| `CacheHistory.CallerHitsIff` | internal/worker/engine.go:151-195 | the same, as the lookups of the fetch protocol see it |
| `CacheHistory.StampsFollowUse` | internal/worker/engine.go:535-625 | in every run the use stamps are ordered as the latest insertion or hit of each slot, so eviction drops the least recently used |
| `SingleFlight.ForeignHit` | internal/worker/engine.go:55-64 | every alias is reachable: a run that fills the requested slot with any bytes that pass the alias's own digest |
| `SingleFlight.UrlAliasIsDishonest` | internal/worker/engine.go:55-64 | a `@url:` alias has a run whose hit fails the requested digest |
| `SingleFlight.DigestAliasIsDishonest` | internal/worker/engine.go:55-64 | so has a `@digest:` alias, once some bytes have its digest |
| `JobStore.FingerprintSeparates` | internal/master/request_tracker.go:213-242 | for a hash without collisions two fingerprints are equal exactly when all eight identity fields are, whatever the request ID and token |
| `JobStore.NewJob` | internal/master/job.go:48-62 | a new row is bound to its request, queued, unattempted, unleased, with the given or the default attempt limit |
| `JobStore.GuardNeverSkipsListed` | internal/master/job_recovery.go:75-79 | the in-memory lease guard never skips a row that the store listed as expired, despite millisecond truncation |
| `JobStore.LeaseExpiry` | internal/master/sqlite_job_store.go:327-341 | a stored lease is expired exactly when the clock has reached the lease's millisecond |
| `JobStore.SQLiteJobStore.Create` | internal/master/sqlite_job_store.go:78-123 | inserts a row only for a new ID |
| `JobStore.SQLiteJobStore.Get` | internal/master/sqlite_job_store.go:125-143 | reads the row, or reports that there is none |
| `JobStore.SQLiteJobStore.MarkQueued` | internal/master/sqlite_job_store.go:145-156 | requeues one row, clearing worker and lease |
| `JobStore.SQLiteJobStore.MarkDispatching` | internal/master/sqlite_job_store.go:158-170 | counts an attempt and stores the millisecond of the given lease on one row |
| `JobStore.SQLiteJobStore.MarkSucceeded` | internal/master/sqlite_job_store.go:172-188 | stores the response of one row and clears its lease |
| `JobStore.SQLiteJobStore.MarkFailed` | internal/master/sqlite_job_store.go:190-201 | fails one row and clears its lease, keeping any response |
| `JobStore.SQLiteJobStore.MarkAmbiguous` | internal/master/sqlite_job_store.go:203-214 | marks one row ambiguous and clears its lease, keeping any response |
| `JobStore.SQLiteJobStore.ListRecoverable` | internal/master/sqlite_job_store.go:216-253 | lists queued rows and rows whose lease has ended, none else, oldest update first, at most the limit, and skips one only for a full batch of rows at least as old |
| `JobStore.BatchMeaning` | internal/master/sqlite_job_store.go:216-234 | a row is listed only when it is due, and always while there is room |
| `JobMachine.RunGrows` | internal/master/sqlite_job_store.go:145-214 | across all interleavings and crashes a request ID keeps one fingerprint, request and maximum forever, attempts never fall, a stored response is never cleared |
| `JobMachine.RunKeepsInv` | internal/master/gateway.go:554-680 | binding, shape, mark-count and async invariants hold in every reachable state |
| `JobMachine.DispatchesAreBound` | internal/master/gateway.go:554-680 | every dispatch ever made carries its ID's fingerprint, attempt equals the applied dispatching marks, dispatches never exceed attempt |
| `JobOwnership.UnfinishedReaderIsInert` | internal/master/gateway.go:661-675 | in every run a handler that reads a queued, dispatching, running or ambiguous row changes no row and dispatches nothing, then or later |
| `JobOwnership.UnfinishedRefuses` | internal/master/gateway.go:661-675 | that read ends the handler, and an equal execute request is told that it is in progress |
| `JobOwnership.TakeoverNeedsFailure` | internal/master/gateway.go:665-671 | in every run, once an ID has a row, a handler takes it over only at a moment when the row has failed with an attempt left: so not between another handler's mark and record, unless the row failed in between |
| `JobOwnership.ForeignRequestIsInert` | internal/master/gateway.go:646-650 | in every run a handler whose request differs from its ID's row in any identity field changes no row and dispatches nothing |
| `JobOwnership.DispatchesAreSameExecution` | internal/master/gateway.go:554-680 | in every run whatever was dispatched under an ID agrees with its row in every identity field |
| `JobLeases.LeaseIsLatestMark` | internal/master/sqlite_job_store.go:158-170 | in every run the lease of a dispatching row ends leaseTTL after its latest mark began, in milliseconds |
| `JobLeases.NotListedEarly` | internal/master/sqlite_job_store.go:216-234 | no scan lists a dispatching row before that millisecond |
| `JobLeases.NotAmbiguousEarly` | internal/master/job_recovery.go:71-83 | only recovery turns a job ambiguous, and not before its latest lease has ended unless the row was marked again after the scan |
| `JobLeases.AsyncNotAmbiguousEarly` | internal/master/job_recovery.go:71-83 | for IDs never sent to execute: never before its latest lease has ended |
| `JobLeases.MarkedAgainIsAmbiguousEarly` | internal/master/job_recovery.go:62-79 | for every configuration and request, a run in which a row marked again after the scan turns ambiguous early |
| `JobMachine.RecordShape` | internal/master/gateway.go:652-661 | succeeded implies a stored response, so the reply for its absence is dead; a lease is positive exactly while dispatching |
| `JobMachine.PickRewrites` | internal/master/job_recovery.go:71-89 | what recovery picks it rewrites: a queued row to dispatching, an expired one to ambiguous |
| `JobMachine.AsyncAttemptsBounded` | internal/master/job_recovery.go:51-107 | for IDs submitted only asynchronously: dispatches <= attempt <= maximum, and a queued job has an attempt left |
| `JobMachine.AmbiguousNeverRedispatched` | internal/master/job_recovery.go:71-83 | once ambiguous, an async-only job is never marked dispatching or dispatched again |
| `JobMachine.PickUpdates` | internal/master/job_recovery.go:71-89 | the lease guard never skips: the pick writes to its head, a mark if it was queued and ambiguity otherwise |
| `JobLimits.SucceededStays` | internal/master/sqlite_job_store.go:145-214 | a succeeded row that no handler and no batch drives stays succeeded and undriven until a failing report |
| `JobLimits.DrivenCanOverwrite` | internal/master/sqlite_job_store.go:145-214 | a driver always has a continuation, without any report, that overwrites the succeeded row |
| `JobLimits.SucceededIsFinalIff` | internal/master/sqlite_job_store.go:145-214 | in every reachable state a succeeded row is final, short of a failing report, exactly when no one drives its job |
| `JobLimits.FailingReportOverwrites` | internal/master/gateway.go:258-262 | a failing report always overwrites success, and keeps the response |
| `JobLimits.SucceededIsOverwritten` | internal/master/sqlite_job_store.go:145-214 | a run in which a succeeded row is marked dispatching again, its response kept |
| `JobLimits.MixedDriversExceedMax` | internal/master/gateway.go:557-568 | for every configuration and every request, a run in which execute and recovery together exceed the maximum |
| `RecoveryFairness.AnyStep` | internal/master/job_recovery.go:56-87 | no step of any actor adds to the backlog of older rows, except by the cost of a crash or a lost write; a missing scan pays for a full batch |
| `RecoveryFairness.MissedScansBounded` | internal/master/sqlite_job_store.go:216-234 | batch size times missed scans is at most the older rows plus pending insertions plus what crashes and lost writes cost |
| `RecoveryFairness.ListedWithinBound` | internal/master/sqlite_job_store.go:216-234 | without crashes and lost writes a waiting queued job is listed within ceil((N+1)/limit) scans, where N counts the other rows at least as old and the pending insertions that sampled their time no later |
| `StoreCalls.Update` | internal/master/sqlite_job_store.go:145-214 | a status update as its caller sees it: applied, lost, or applied with an error |
| `JobRecovery.RecoverQueuedJob` | internal/master/job_recovery.go:85-107 | from any snapshot and any table: marks, and if that went through dispatches and records success, final failure or requeue |
| `JobRecovery.RecoverJob` | internal/master/job_recovery.go:71-83 | recovers a queued snapshot or an expired lease and leaves the table alone otherwise |
| `JobRecovery.RecoverOnce` | internal/master/job_recovery.go:51-69 | one scan lists a batch and recovers its snapshots in order, whatever fails in between |
| `JobRecovery.ListedIsSettled` | internal/master/job_recovery.go:71-83 | a listed row that nothing else has touched is settled, none is skipped |
| `JobRecovery.ScanSettles` | internal/master/job_recovery.go:51-69 | a scan whose writes are applied settles the listed rows and does nothing else |
| `JobRecovery.RowSettled` | internal/master/job_recovery.go:62-66 | each listed row ends up settled |
| `JobRecovery.OtherRowsKept` | internal/master/job_recovery.go:62-66 | no other row changes |
| `JobRecovery.SettledMeaning` | internal/master/job_recovery.go:85-107 | a settled row is succeeded, failed at its maximum, queued with an attempt left, or ambiguous |
| `JobRecovery.HeadRuns` | internal/master/job_recovery.go:71-107 | the sequential treatment of a job, whatever its status and whatever fails, is a run of the machine |
| `Gateway.BeginDurableJob` | internal/master/gateway.go:625-680 | creates the row or decides from the existing one, status by status and with every store error: bad request, unavailable, conflict, replay, in progress, out of attempts, or own the attempt |
| `Gateway.CreateQueuedJob` | internal/master/gateway.go:592-623 | an async submission creates the row, reads it, or is refused, with every store error |
| `Gateway.HandleDurableExecute` | internal/master/gateway.go:554-590 | the table and the reply after a whole execute, whichever writes fail: a new request is answered with its response exactly when both writes are applied and the dispatch returned |
| `Gateway.HandleJobCompletion` | internal/master/gateway.go:219-272 | records the worker's report on the row if there is one and the write goes through |
| `Gateway.Reported` | internal/master/gateway.go:249-253 | the stored response carries the job's ID, keeps a node that the worker named, and else names the worker |
| `Gateway.RepeatReplays` | internal/master/gateway.go:646-660 | repeating a succeeded request replays its response; a request under the ID that differs in any identity field is refused; neither changes anything, whatever fails |
| `Gateway.RepeatAfterFailure` | internal/master/gateway.go:665-671 | a failed request can be repeated exactly until its attempts are used up |
| `Gateway.UndisturbedExecute` | internal/master/gateway.go:554-590 | the sequential execute, whatever it decides and whatever fails, is a run of the machine with the same table and reply |
| `Gateway.HandleExecute` | internal/master/gateway.go:359-391 | Begin, at most one dispatch, then Complete or Forget, with the reply for each answer; every other answer leaves the tracker as Begin did |
| `RequestTracker.NormalizeLimits` | internal/master/request_tracker.go:55-69 | usable limits are kept, others take their documented default |
| `RequestTracker.TrimsUnique` | internal/master/request_tracker.go:185-206 | eviction has at most one outcome |
| `RequestTracker.TrimsExists` | internal/master/request_tracker.go:185-206 | eviction always has an outcome |
| `RequestTracker.ExecutionRequestTracker.constructor` | internal/master/request_tracker.go:55-69 | a new tracker is empty with normalized limits |
| `RequestTracker.ExecutionRequestTracker.Begin` | internal/master/request_tracker.go:71-112 | expires, then starts, replays, or refuses, exactly by what is tracked under the ID and is not older than the ttl |
| `RequestTracker.ExecutionRequestTracker.Complete` | internal/master/request_tracker.go:114-135 | completes an existing entry and evicts |
| `RequestTracker.ExecutionRequestTracker.Forget` | internal/master/request_tracker.go:137-145 | deletes that ID and no other |
| `RequestTracker.ExecutionRequestTracker.Stats` | internal/master/request_tracker.go:147-174 | after expiry, the total is in-flight plus completed |
| `RequestTracker.CountProgress` | internal/master/request_tracker.go:164-171 | counts the in-flight entries, and the rest as completed |
| `RequestTracker.ExecutionRequestTracker.RemoveExpiredCompletedLocked` | internal/master/request_tracker.go:176-183 | removes exactly the completed entries more than ttl old and counts them |
| `RequestTracker.ExecutionRequestTracker.OldestCompletedLocked` | internal/master/request_tracker.go:187-200 | finds the completed entry with the strictly smallest stamp, or reports that all are in flight |
| `RequestTracker.ExecutionRequestTracker.EvictCompletedOverLimitLocked` | internal/master/request_tracker.go:185-206 | removes only the least recently seen completed entries, no more than the limit asks, never in-flight ones, and counts them |
| `TrackerProtocol.RunKeepsInv` | internal/master/gateway.go:359-391 | the ownership, replay, size and conservation invariants hold in every reachable state |
| `TrackerProtocol.AtMostOneDispatch` | internal/master/gateway.go:359-391 | an ID is started exactly when one handler owns it, with that handler's fingerprint, so at most one dispatch per ID is outstanding and Complete finds its entry |
| `TrackerProtocol.ReplayIsLatest` | internal/master/request_tracker.go:71-135 | a replayed response is that of the latest Complete of the ID in an unbounded map, from an equal request, at most ttl old |
| `TrackerRetention.RecentIsReplayed` | internal/master/request_tracker.go:71-183 | in every run an equal request that begins at most ttl after a Complete is answered with that response, unless the entry was evicted in between |
| `TrackerRetention.StampsFollowUse` | internal/master/request_tracker.go:87-211 | in every run the stamps are ordered as the latest start, replay or completion of each ID, so eviction drops the least recently used |
| `TrackerProtocol.AnswerHasReply` | internal/master/gateway.go:364-379 | each answer of Begin has its reply, and only Started goes on to dispatch |
| `TrackerProtocol.RefusalIsJustified` | internal/master/request_tracker.go:99-111 | in progress means another handler owns the ID with the same fingerprint; conflict means an owner or a recent completion with a different one |
| `TrackerProtocol.RestartNeedsRemoval` | internal/master/request_tracker.go:71-145 | between two Started answers for an ID its entry was forgotten, expired or evicted |
| `TrackerProtocol.EntriesConserved` | internal/master/request_tracker.go:87-206 | inserts equal entries plus evictions plus expired plus forgotten, ID by ID and in total |
| `TrackerProtocol.TableBounded` | internal/master/request_tracker.go:185-211 | entries are at most max(limit, IDs in flight); stamps are distinct and at most the sequence |
| `TrackerProtocol.HandlerCanStep` | internal/master/gateway.go:359-391 | a handler that is not done always has a next step |
| `TrackerProtocol.UndisturbedHandle` | internal/master/gateway.go:359-391 | the sequential handler, whatever Begin answers and however the dispatch ends, is a run of the protocol |
| `Registry.RegistryAlwaysOk` | internal/master/registry.go:44-120 | after any events the keys are the worker IDs and no stored state or time is blank |
| `Registry.OnlyRegisterReadies` | internal/master/registry.go:64-120 | only a registration of the ID can make it schedulable, and a drain makes it unschedulable |
| `Registry.DrainedUntilRegistered` | internal/master/registry.go:106-120 | from a drain of an ID until its next registration it is not schedulable, whatever else occurs |
| `Registry.RegisteredIsSchedulable` | internal/master/registry.go:44-56 | a registration with a blank or ready state makes its ID schedulable until it is drained, registered again or cleaned up |
| `Registry.WorkerRegistry.constructor` | internal/master/registry.go:27-38 | an empty registry with the given or the default timeout |
| `Registry.WorkerRegistry.RegisterWorker` | internal/master/registry.go:44-56 | stores the worker under its ID, a blank state as ready and a zero time as now |
| `Registry.WorkerRegistry.UpdateWorkerStatus` | internal/master/registry.go:64-79 | refreshes capacity and time of a known worker, never its draining state |
| `Registry.WorkerRegistry.DrainWorker` | internal/master/registry.go:106-120 | marks a known worker draining |
| `Registry.WorkerRegistry.GetSchedulableWorkers` | internal/master/registry.go:92-104 | lists every schedulable worker once and no other |
| `Registry.WorkerRegistry.CleanupAt` | internal/master/registry.go:176-191 | keeps exactly the workers seen within the timeout |
| `Dispatch.FilterMembers` | internal/master/scheduler.go:30-46 | filtering keeps exactly the wanted workers, and their distinctness |
| `Dispatch.FilterWorkersByCapacity` | internal/master/scheduler.go:30-46 | the workers that are not draining and have at least the free CPU and the free RAM asked for, in order |
| `Dispatch.FindClosestWorker` | internal/master/scheduler.go:49-69 | the first worker at the shortest comparable distance, the zero worker if none compares, an error for no workers |
| `Dispatch.SelectWorker` | internal/master/scheduler.go:20-27 | fails exactly when no worker is eligible, else selects a closest eligible one |
| `Dispatch.ClosestOfEligible` | internal/master/scheduler.go:20-69 | when some eligible distance compares, the selected worker is eligible and none is nearer |
| `Dispatch.RemoveWorkerCandidate` | internal/master/dispatcher.go:232-242 | drops every candidate with the selected ID and address |
| `Dispatch.ForwardToWorker` | internal/master/dispatcher.go:153-230 | retryable exactly for a lost exchange or status 502, 503, 504; an answer needs a 2xx status and a decodable body and names the worker |
| `Dispatch.Dispatch` | internal/master/dispatcher.go:72-151 | contacted workers are distinct, eligible and a prefix in nondecreasing distance, followed by the zero worker only while no remaining eligible distance compares; all but the last were retried; the outcome is explained by the last; the exhausted counter rises only when every schedulable worker was contacted; one reschedule per retry that leaves candidates |
| `Dispatch.AllButLastRetried` | internal/master/dispatcher.go:98-126 | every forward but the last got no response or 502, 503 or 504, while the context was live |
| `Dispatch.AnswerNamesLast` | internal/master/dispatcher.go:98-109 | a response names the last contacted worker |
| `Dispatch.HealthyWorkerSuffices` | internal/master/dispatcher.go:81-140 | one eligible worker that answers is enough when no other fails for good, and no worker farther than it is contacted |
| `Dispatch.DispatchDetermined` | internal/master/dispatcher.go:81-151 | without distance ties the contacted workers and the outcome are determined |
| `Dispatch.ReschedulingEndsIff` | internal/master/dispatcher.go:81-140 | the loop ends within one forward per worker, whatever fails, exactly when every eligible distance compares |
| `Dispatch.DrainedNeverContacted` | internal/master/dispatcher.go:72-98 | a dispatch that starts between a drain of an ID and its next registration never contacts it |
| `HttpRetry.DoWithRetryPolicy` | internal/shared/client.go:69-112 | at most max(1, attempts) sends; the first attempt that does not go on decides; received responses are the drained ones followed by the returned one; sleep is at most the full delay; the "attempts exhausted" error never occurs |
| `HttpRetry.FullDelayIsTriangular` | internal/shared/client.go:165-180 | the full delay after n sends is backoff * n(n+1)/2 |
| `HttpRetry.ReceivedOnce` | internal/shared/client.go:81-99 | received responses are distinct, and are exactly the sends that got one |
| `HttpRetry.ResultDetermined` | internal/shared/client.go:78-112 | the number of sends and the result are determined by the environment |
| `HttpRetry.NoUnsafeResend` | internal/shared/client.go:114-151 | a body that cannot be replayed is sent at most once; before the last attempt a response is returned exactly when its status is not 408, 429, 500, 502, 503 or 504 |
| `HttpRetry.GoesOnForCause` | internal/shared/client.go:78-103 | another send needs a live context, an unbroken sleep and a body that can be rebuilt |
| `HttpRetry.LostSendIsRetried` | internal/shared/client.go:89-103 | a lost send under a live context is retried while attempts last, unless the sleep is cut or the request cannot be rebuilt |
| `AcrReference.ScanForKeyword` | internal/master/acr_manifest.go:89-106 | finds the first OCI keyword and the kind it introduces |
| `AcrReference.ParseACRModuleReference` | internal/master/acr_manifest.go:62-127 | parses, with every error case, as the specification function does |
| `AcrReference.PrintThenParse` | internal/master/acr_manifest.go:62-127 | printing any well-formed reference and parsing it gives the reference back |
| `AcrReference.ParseThenPrint` | internal/master/acr_manifest.go:62-127 | a parse yields a well-formed reference that prints back to the trimmed path |
| `AcrReference.BlobUrlRoundTrip` | internal/master/acr_manifest.go:239-260 | for any URL that parses and any sha256 digest the blob URL parses back to the same registry and repository, and to the digest if and only if it does not end in a slash |
| `AcrReference.TrailingSlashIsLost` | internal/master/acr_manifest.go:239-260 | a digest whose final slash is lost |
| `AcrReference.SelectWASMLayer` | internal/master/acr_manifest.go:207-233 | the only layer, or the first of several whose media type is one of the three WebAssembly types, or an error exactly when there is none |
| `AcrReference.ManifestResolvesToBlob` | internal/master/acr_manifest.go:140-164 | a manifest resolves exactly when a layer with a sha256 digest is selected, to that layer's blob in the same repository |
| `AcrReference.OtherKindsPassThrough` | internal/master/acr_manifest.go:140-144 | everything that is not a manifest is handed on as it is |
| `AcrReference.ResolveIsIdempotent` | internal/master/acr_manifest.go:140-164 | resolving a resolved URL again changes nothing, exactly when the digest does not end in a slash |
| `CappedOutput.BufferMeaning` | internal/worker/engine.go:420-439 | however chunked, the buffer holds the first max bytes; the exact condition of overflow; no cap for max <= 0 |
| `CappedOutput.NonEmptyWritesAreExact` | internal/worker/engine.go:420-439 | without empty writes overflow means exactly that the output is longer than the cap |
| `CappedOutput.EmptyWriteOverflows` | internal/worker/engine.go:428-431 | output of exactly max bytes is flagged when an empty write follows |
| `CappedOutput.CappedBuffer.Write` | internal/worker/engine.go:420-439 | one write, always reporting full length |
| `CappedOutput.RunWASIModule` | internal/worker/engine.go:376-410 | stdout is returned whole or not at all, and never exceeds MaxOutputBytes |
| `CappedOutput.UnpackOutput` | internal/worker/engine.go:358-371 | a packed result never yields more than MaxOutputBytes |
| `CappedOutput.PackThenUnpack` | internal/worker/engine.go:358-371 | a packed pointer and length reads exactly that region when it is in bounds and within the limit |

## Left out

- Dispatch.Dispatch: requires that the loop ends: every eligible distance compares, or some forward to the zero worker is not retried and no worker is registered with a blank ID and address. `ReschedulingEndsIff` shows that the Go loop need not end otherwise.
- Dispatch.ReschedulingEndsIff: assumes that no worker is registered with both a blank ID and a blank address, the one worker that dropping the zero worker would drop.
- JobRecovery.RecoverOnce: the sequential form starts each job from the table that the previous one left; what others write in between is in `JobMachine`.
- Gateway.HandleDurableExecute: the sequential form has no other writer between its store calls; those are in `JobMachine`.
- ModuleFetch.FetchAndCacheWithDigest: when someone else leads the key, only the cancelled wait is possible without interleaving; waking is in `SingleFlight`.
- SingleFlight.WaitersWakeInEveryRun: that the Go scheduler lets the leader take its four steps is not modelled.
- SingleFlight.HitHasDigest: a blank or unreachable module URL is assumed not to download.
- CappedOutput.RunWASIModule: stderr, traps inside the guest and instantiation errors are one failing outcome.
- Integers are unbounded: wrap-around of the cache clock, the tracker's sequence and counters, and overflow of sleep durations are not modelled.
- Safety of a compiled module after its handle leaves the cache lock: nothing pins it against eviction, and no claim is made.
- The Haversine formula and its floating-point rounding: the distance is an arbitrary function, with None for a value that is not below math.MaxFloat64.
- WebAssembly execution, linear memory calls, TLS, SQLite internals, net/url and JSON encoding, which are assumed to round-trip what is given to them.
- The text of stored error messages: the ambiguous mark keeps a fixed reason without the formatted lease time.
- Certificate identity, module source policy, registry tokens, metrics, configuration, telemetry, CLI and UI: single checks or plumbing.
- The execution semaphore of the worker and the lazy construction of the gateway's tracker and metrics: these are assumed to be built once.
- Panics and cancelled SQL contexts beyond a write that is lost or that is applied although its caller sees an error.
- Draining does not survive re-registration: worker telemetry re-registers with an empty state, which becomes ready, so drain properties stop at the next registration.
