# nanoAuralRuntime: verified models of its caches, publication protocol and lifecycles

This project models the parts of nanoAuralRuntime where correctness depends on many
operations playing together, and proves what they keep.

- **The ControlFoley caches.** A staged pipeline (preprocess, condition encoding and
  projection, integration, decoding) is sped up by an L0/L1 memory cache and an L2 disk
  cache. `CacheKeys` and `StagedPath` define keys, backends and the pipeline; `MemoryCache`
  and `DiskStore` are the two stores; `L0L1Cache` and `ConditionCache` the two facades with
  their transactions, generations, fuses and rollback. `CacheHistory` puts any number of
  invocations together with drift of the input files, eviction, expiry, corruption, store
  faults, invalidations, failures and restarts; `CacheTransparency`, `CacheSafety`,
  `CacheFailClosed`, `CacheRestart` and `CacheUnchecked` say what every such history keeps,
  `CacheDrift` and `CacheReturn` where the guarantee ends, and `DiskBacked` that the disk
  store is one of the stores they speak of. `SafeTensor`, `FakeBackend` and `BackendSessions` model the payload
  container, the deterministic fake backend as a concrete instance, and the session tables.
- **Artifact publication.** `Ledger` is the versioned publication ledger, `PublicationRuns`
  the interleaving of worker threads, crashes, lease expiry and sweepers,
  `PublicationSafety` its invariants, `PublicationComplete` that no job
  succeeds with a part of its artifacts, `OrphanSweep` one whole sweep and what no sweep
  ever reaches, `PublicationLeftover` and `PublicationStarvation` runs that get there.
- **Lifecycles.** `SessionLifecycle` (single-flight model sessions) and `RuntimeOwner`
  (leases and exclusive teardown of the embedded runtime), each for any number of threads.
- **Smaller cores.** `FileSetPublication` (all-or-nothing release files, in a directory
  others use), `EventPaging` (cursor paging and the remote wait loop), `ProfileRecorder` (interval accounting) and
  `SpdxGraph` (the SPDX 2.3 relationship graph, clause 11).

How the models read: SHA-256 is collision-free, so a digest is represented by what it was
computed from; a raised exception is a value (`None`, an error constructor) or a program
point; clocks, file-system answers, the backend and the behaviour of other threads are
arguments, so that a statement over all arguments is one over all behaviours. Time is in
integer nanoseconds or reals. Verify everything with `dafny verify dfyconfig.toml`.

## Where the code falls short of its description

The models follow the code. Each item is stated by a lemma, with the exact condition under
which the property holds.

- A preprocess value read before the input file changes is combined with L2 features read
  after it, because the second `begin` does not compare keys, and a stale L1 generation
  makes the L1 commit skip its comparison: `CacheDrift.CombinesIffSameKey`,
  `CacheDrift.MisalignedBeginMisleads`, `L0L1Cache.DriftGoesUnnoticedIffStale`.
- A failed invocation's L2 entry is unreadable in its own process, and served by the next
  one exactly when its deployment was disabled by flags in memory only
  (`CacheRestart.FailedEntryServedNextIff`). That happens in three ways: neither fuse file
  could be created after a fault (`ConditionCache.FuseSurvivesRestart`), the check of the
  fuses failed during the rollback (`CacheRestart.RollbackServedNextIff`), or the cache was
  closed before the rollback (`CacheRestart.CloseDisarmsRollback`,
  `CacheReturn.FailedEntryReturns`). Without these, fail-closed holds across restarts
  (`CacheRestart.FailClosedAcrossRestarts`).
- The L2 store compares wall-clock with monotonic nanoseconds when it evicts, and can evict
  the entry it just wrote: `DiskStore.StoredIffFits`, `DiskStore.JustPutCanBeEvicted`.
- The sweeper's second query keeps returning failed records that were cleaned long ago;
  enough of them starve the inventory stage for good
  (`OrphanSweep.CleanedFailuresStarveInventory`, reached for every limit by
  `PublicationStarvation.StarvationIsReachable`), and an object written again under a
  finalized, cleaned record is out of every stage's reach (`OrphanSweep.LeftoverInReachIff`,
  `PublicationLeftover.LeftoverIsReachable`).
- A safetensors bundle whose tensor is named `__metadata__` passes the name check
  (`SafeTensor.MetadataIsAnIdentifier`) and never validates (`SafeTensor.BuildRoundTrips`).
- An interrupt while `close` waits for leases leaves the embedded owner closing for ever:
  `RuntimeOwner.InterruptedWaitStrands`, reached by `RuntimeOwner.StrandedIsReachable`.
- File-set publication rolls back exceptions but not interrupts
  (`FileSetPublication.PublishCollection`). When others use the directory it overwrites
  nothing of theirs but can remove a file of theirs: a temporary is unlinked by name alone
  (`FileSetPublication.TemporaryTakenIff`), and the inode check at a target is exact if and
  only if some name still links the inode (`FileSetPublication.FooledIffUnpinned`), which the
  rollback ends by dropping the temporaries before it looks at the targets
  (`FileSetPublication.FooledIffTemporaryDropped`).
- A CUDA backend whose `begin` returns None for some stages and a token for others yields a
  report with CUDA figures on some stages only: `ProfileRecorder.CudaUniformIffTokens`,
  `ProfileRecorder.MixedReportExists`.

## Model

| member | source | states |
|---|---|---|
| CacheKeys.FingerprintsDecode | src/nano_aural_runtime_controlfoley/cache.py:277-321 | every input content can be read back from the fingerprint list of a key |
| CacheKeys.KeyDeterminesObservation | src/nano_aural_runtime_controlfoley/cache.py:277-334 | equal keys mean equal inputs, parameters and deployment, so a key stands for one observation of the backend |
| CacheKeys.KeyExistsIff | src/nano_aural_runtime_controlfoley/cache.py:230-293 | a request has a key exactly when it brings the inputs of its task and no others, with positive duration and steps |
| CacheKeys.FeaturesFollowInputs | src/nano_aural_runtime_controlfoley/staged.py:63-78 | the encoder roles of a task are those of its inputs |
| StagedPath.RunThreads | src/nano_aural_runtime_controlfoley/staged.py:633-703 | every run, whatever is cached or drifts, gives one payload per stage, each that stage's own backend call on the payload before it, the condition stage of a split backend projecting one imported or encoded feature per role in role order; it fails exactly on refused cached features |
| StagedPath.UncachedIsDirect | src/nano_aural_runtime_controlfoley/staged.py:633-703 | with every cache off the payloads are the backend calls nested in stage order on the inputs alone |
| StagedPath.CapturedIffEncoded | src/nano_aural_runtime_controlfoley/staged.py:727-765 | a feature is offered for caching exactly when its encoder ran and its value was exported |
| StagedPath.RunIsTransparent | src/nano_aural_runtime_controlfoley/staged.py:612-776 | with cached values that are exports for the same inputs, all four stage payloads equal those of the uncached run, the backend calls nested in order, whatever is hit, missed or rejected, and every newly captured payload is again an export |
| StagedPath.ConditionAccounting | src/nano_aural_runtime_controlfoley/staged.py:705-776 | a completed run of a split backend projects once, and hits plus encoder calls equal the number of task roles, a rejected payload counting as a miss and every role being encoded without an L2 transaction; for any backend and any drift |
| StagedPath.RunConditionFeatures | src/nano_aural_runtime_controlfoley/staged.py:723-776 | the role loop computes the features, captures, rejections and encoder count of the specification |
| StagedPath.Invoke | src/nano_aural_runtime_controlfoley/staged.py:612-703 | the stage loop yields the specified run, in which each payload is its stage's backend call on the one before, or fails exactly on a contract error |
| MemoryCache.EvictIsMinimal | src/nano_aural_runtime_controlfoley/cache.py:545-552 | eviction removes the shortest least-recent prefix after which both limits hold |
| MemoryCache.EvictKeepsNewest | src/nano_aural_runtime_controlfoley/cache.py:460-491 | an entry within the entry limit is never evicted by its own insertion |
| MemoryCache.InsertSpec | src/nano_aural_runtime_controlfoley/cache.py:471-491 | after an insertion the new entry is resident with its bytes, and every other entry is as before or evicted |
| MemoryCache.PutSpec | src/nano_aural_runtime_controlfoley/cache.py:460-491 | both limits hold after every put, a live entry is never overwritten, and "rejected" is answered only for an oversized payload |
| MemoryCache.PutThenGet | src/nano_aural_runtime_controlfoley/cache.py:445-491 | a stored payload is what a following get returns until it expires |
| MemoryCache.GetKeepsWellFormed | src/nano_aural_runtime_controlfoley/cache.py:445-458 | a get keeps limits, identities and byte accounting; a hit only reorders |
| MemoryCache.GetMovesLast | src/nano_aural_runtime_controlfoley/cache.py:445-458 | a get of a live entry hits, leaves it last and the others in their order; a miss takes out at most the expired entry |
| MemoryCache.PutMovesLast | src/nano_aural_runtime_controlfoley/cache.py:460-491 | a put that answers "present" does the same; one that stores puts its entry last, after the recent end of the others |
| MemoryCache.RecencyIsLastUse | src/nano_aural_runtime_controlfoley/cache.py:445-552 | after any sequence of gets, puts and removals the entries stand in the order of their last use |
| MemoryCache.EvictsLeastRecentlyUsed | src/nano_aural_runtime_controlfoley/cache.py:545-552 | a put evicts no entry while keeping one that was used less recently |
| MemoryCache.Store.GetEntry | src/nano_aural_runtime_controlfoley/cache.py:445-458 | the method is the specified get on the recency list |
| MemoryCache.Store.PutIfAbsent | src/nano_aural_runtime_controlfoley/cache.py:460-491 | the method is the specified put, with `_bytes_used` equal to the sum of payload sizes |
| MemoryCache.Store.EvictToLimits | src/nano_aural_runtime_controlfoley/cache.py:545-552 | the loop computes the specified eviction |
| MemoryCache.Store.InvalidateDeployment | src/nano_aural_runtime_controlfoley/cache.py:500-511 | exactly the deployment's entries go, and the rest keeps its order |
| L0L1Cache.DriftGoesUnnoticedIffStale | src/nano_aural_runtime_controlfoley/cache.py:779-798 | a commit of changed inputs ends without a drift error exactly when a key can be derived and the generation is stale |
| L0L1Cache.OnlyCurrentTransactionsWrite | src/nano_aural_runtime_controlfoley/cache.py:779-798 | a commit writes only under the current generation and the unchanged key |
| L0L1Cache.ReadServes | src/nano_aural_runtime_controlfoley/cache.py:689-718 | a read hits exactly on a readable entry of the expected content that the store still yields, and touches no other |
| L0L1Cache.PutServes | src/nano_aural_runtime_controlfoley/cache.py:842-860 | a put the store carries out is readable at once, under the current generation |
| L0L1Cache.Facade.CommitTransaction | src/nano_aural_runtime_controlfoley/cache.py:632-651 | the put loop and its guards compute the specified commit |
| L0L1Cache.Facade.Invalidate | src/nano_aural_runtime_controlfoley/cache.py:800-810 | the generation advances first; a raising store disables the deployment |
| ConditionCache.CommitFailsClosed | src/nano_aural_runtime_controlfoley/condition_cache.py:859-898 | a commit that raises at any check, put or revalidation leaves none of its entries readable; one that succeeds leaves readable only the keys it reports |
| ConditionCache.CommitReportsStored | src/nano_aural_runtime_controlfoley/condition_cache.py:868-898 | a commit succeeds exactly when no check raises and the keys still agree; it has then made every put, and reports a key exactly when that key's own put answered "stored" |
| ConditionCache.StoredLeavesEntry | src/nano_aural_runtime_controlfoley/condition_cache.py:868-884 | over an honest store such a put left the entry resident with its payload, under this transaction |
| ConditionCache.CommitSparesOthers | src/nano_aural_runtime_controlfoley/condition_cache.py:859-908 | a commit over an honest store, its rollback included, leaves every resident entry that none of its puts placed anew or evicted |
| ConditionCache.ReadServes | src/nano_aural_runtime_controlfoley/condition_cache.py:945-961 | a read hits exactly on a readable entry while neither check nor store fails, with its payload |
| ConditionCache.RolesServe | src/nano_aural_runtime_controlfoley/condition_cache.py:945-961 | while the fuse checks succeed each role of a transaction hits or misses by its own entry alone |
| ConditionCache.PutFuses | src/nano_aural_runtime_controlfoley/condition_cache.py:1154-1171 | a conflict and every uncertain answer disable the deployment, the other answers change no flag or fuse |
| ConditionCache.RollbackWithdraws | src/nano_aural_runtime_controlfoley/condition_cache.py:904-908 | after a rollback, whichever deletes fail, every listed key is absent or its deployment disabled |
| ConditionCache.InvalidationFences | src/nano_aural_runtime_controlfoley/condition_cache.py:1089-1124 | no entry of an affected deployment resident before an invalidation is readable after it, also if the store raised |
| ConditionCache.InvalidationReenablesEmpty | src/nano_aural_runtime_controlfoley/condition_cache.py:1089-1124 | an invalidation enables a disabled deployment only after deleting all its entries |
| ConditionCache.RestartKeepsDisabledIffFused | src/nano_aural_runtime_controlfoley/condition_cache.py:980-984 | in a new process a deployment is disabled exactly when a fuse file covers it |
| ConditionCache.FuseSurvivesRestart | src/nano_aural_runtime_controlfoley/condition_cache.py:1196-1213 | a fused deployment is disabled now, and after a restart unless neither fuse file could be created |
| ConditionCache.Facade.IsDisabled | src/nano_aural_runtime_controlfoley/condition_cache.py:1137-1144 | the check of flags and fuse files, a failing check disabling everything |
| ConditionCache.Facade.Put | src/nano_aural_runtime_controlfoley/condition_cache.py:1154-1171 | a fault or conflict fuses the deployment; the new state is the specified one |
| ConditionCache.Facade.Delete | src/nano_aural_runtime_controlfoley/condition_cache.py:1173-1182 | a delete that reports success leaves the key absent; one that raises fuses |
| ConditionCache.Facade.Invalidate | src/nano_aural_runtime_controlfoley/condition_cache.py:1089-1100 | the method computes the specified invalidation |
| ConditionCache.Transaction.Commit | src/nano_aural_runtime_controlfoley/condition_cache.py:859-898 | the put loop with its cancellation checks and its rollback arm computes the specified commit |
| ConditionCache.Transaction.RollbackNewWrites | src/nano_aural_runtime_controlfoley/condition_cache.py:904-908 | the loop deletes the newest key first and forgets them all |
| CacheTransparency.CacheIsTransparent | src/nano_aural_runtime_controlfoley/adapter.py:879-1107 | in every history over a faithful backend in which no L2 transaction begins on other inputs than a cached preprocess value was read under, a returned invocation with unchanged or compared inputs has the uncached run's payloads and artifact, and every intact L2 entry is the backend's export for its key |
| CacheTransparency.StepSound | src/nano_aural_runtime_controlfoley/adapter.py:898-1107 | every step of an invocation or of its surroundings keeps all stored payloads exports and all finished runs equal to uncached ones |
| CacheUnchecked.UncheckedMeansStale | src/nano_aural_runtime_controlfoley/adapter.py:1011-1051 | in every history, an invocation that returned without any passed key comparison had no L2 transaction, and its L1 transaction, if any, was begun under an older generation |
| CacheDrift.CombinesIffSameKey | src/nano_aural_runtime_controlfoley/adapter.py:898-912 | a preprocess value cached for some inputs gives the uncached payloads on others, for every backend, exactly when their keys are equal |
| CacheDrift.MisalignedBeginMisleads | src/nano_aural_runtime_controlfoley/adapter.py:898-1051 | a concrete run from an empty cache, in which a file changes between the two begins and the L1 tier is invalidated, returns, after a passed comparison, payloads that are not those of its inputs |
| CacheSafety.InvalidationIsAFence | src/nano_aural_runtime_controlfoley/condition_cache.py:1043-1124 | in every history of a process, an entry readable after an invalidation was written by a transaction begun after it |
| CacheSafety.InvalidationIsAFence1 | src/nano_aural_runtime_controlfoley/cache.py:738-821 | the same for L0/L1 entries by their generation |
| CacheSafety.OldTransactionsNeverWrite | src/nano_aural_runtime_controlfoley/condition_cache.py:1043-1067 | a transaction of either tier begun before an invalidation changes no store whenever it commits |
| CacheSafety.DisabledUntilEmptied | src/nano_aural_runtime_controlfoley/condition_cache.py:1089-1144 | within a process a deployment found disabled is later served only from entries of a later generation |
| CacheSafety.StepEvolves | src/nano_aural_runtime_controlfoley/condition_cache.py:904-1213 | each step adds entries only for a standing commit, never enables a deployment with entries left, and never lowers the generation |
| CacheFailClosed.FailedInvocationsLeaveNothing | src/nano_aural_runtime_controlfoley/adapter.py:1011-1107 | in every history over an honest store, a readable entry's writer is an earlier process or an invocation that did not fail and still lists it; a failed invocation leaves nothing readable |
| CacheRestart.RestartServesIff | src/nano_aural_runtime_controlfoley/condition_cache.py:965-984 | the next process serves an entry exactly when it is intact and no fuse file covers it |
| CacheRestart.FailedEntryServedNextIff | src/nano_aural_runtime_controlfoley/condition_cache.py:1137-1213 | in every history, an intact entry left by a failed invocation is unreadable, and readable in the next process exactly when no fuse file covers its deployment |
| CacheRestart.RollbackServedNextIff | src/nano_aural_runtime_controlfoley/condition_cache.py:1137-1182 | a rollback's delete leaves its entry to the next process exactly when the fuse check failed, or the delete failed and neither fuse file could be created |
| CacheRestart.CloseDisarmsRollback | src/nano_aural_runtime_controlfoley/condition_cache.py:1126-1144 | after a close every rollback does nothing, and what was readable is readable in the next process unless the close failed and left the global fuse file |
| CacheRestart.FailClosedAcrossRestarts | src/nano_aural_runtime_controlfoley/condition_cache.py:1126-1213 | over any number of processes in which fuse checks succeed and fuse attempts leave a file, and which do not go on after a close, no readable entry was written by an invocation that failed |
| CacheReturn.FailedEntryReturns | src/nano_aural_runtime_controlfoley/condition_cache.py:1126-1144 | a concrete run without any fault of the store in which the cache is closed between a commit and its rollback ends with a failed invocation whose entry the next process serves |
| DiskBacked.DiskPutIsHonest | src/nano_aural_runtime_controlfoley/condition_cache.py:403-462 | every put of the disk store is, seen from the facade, an honest one |
| DiskBacked.PublishingReplacesUnservable | src/nano_aural_runtime_controlfoley/condition_cache.py:415-446 | a put replaces no pair that could be served |
| DiskBacked.PutMirrors | src/nano_aural_runtime_controlfoley/condition_cache.py:403-462 | unless another process publishes meanwhile, the facade's put and the disk store's leave the same complete pairs with the same payloads |
| DiskBacked.DiskFailsClosed | src/nano_aural_runtime_controlfoley/adapter.py:1011-1107 | fail-closed over the disk store, with nothing assumed of its answers |
| CacheFailClosed.StepCloses | src/nano_aural_runtime_controlfoley/adapter.py:1101-1107 | each step, rollback steps of the exception handler included, keeps every write listed for rollback, absent or unreadable |
| DiskStore.CleanupLeavesOnlyLive | src/nano_aural_runtime_controlfoley/condition_cache.py:493-552 | from any directory, after cleanup every digest is a live, unfused complete pair within its TTL or a one-sided orphan younger than the grace period, and no temporary is older |
| DiskStore.CleanupRespectsLimits | src/nano_aural_runtime_controlfoley/condition_cache.py:493-552 | after cleanup the resident records fit the item and byte limits |
| DiskStore.CleanupKeepsLivePairs | src/nano_aural_runtime_controlfoley/condition_cache.py:493-552 | cleanup never loses a live pair while the limits hold |
| DiskStore.SurvivorsFit | src/nano_aural_runtime_controlfoley/condition_cache.py:717-735 | the records that survive eviction meet both limits |
| DiskStore.EvictionIsMinimal | src/nano_aural_runtime_controlfoley/condition_cache.py:717-735 | only records ranked before every survivor are evicted, and none that would still fit |
| DiskStore.GetServesExactly | src/nano_aural_runtime_controlfoley/condition_cache.py:381-401 | a read returns a payload exactly when both files exist, bind the key, agree in digest and size and are within their time; other digests are untouched |
| DiskStore.StoredIsServable | src/nano_aural_runtime_controlfoley/condition_cache.py:403-462 | "stored" means the payload can be read at once and until it expires |
| DiskStore.OnlyStoredLeavesFiles | src/nano_aural_runtime_controlfoley/condition_cache.py:403-462 | any other answer leaves no file of this call; what remains was there before or came from another process |
| DiskStore.PutComparesServable | src/nano_aural_runtime_controlfoley/condition_cache.py:415-421 | a put against a servable entry answers "present" for its very bytes and "conflict" for others |
| DiskStore.PutComparesArrival | src/nano_aural_runtime_controlfoley/condition_cache.py:436-444 | so does a put that waited for another process's metadata; metadata that does not belong to the data raises |
| DiskStore.ComparedEntryIsThere | src/nano_aural_runtime_controlfoley/condition_cache.py:403-444 | whenever a put answers "present" or "conflict", an intact entry with these, or other, bytes is there |
| DiskStore.StoredThenPut | src/nano_aural_runtime_controlfoley/condition_cache.py:403-462 | a second put before the expiry of a stored entry answers "present" for the same bytes and "conflict" for others |
| DiskStore.StoredIffFits | src/nano_aural_runtime_controlfoley/condition_cache.py:433-462 | a new entry is kept exactly when it and everything ranked after it fit the limits |
| DiskStore.JustPutCanBeEvicted | src/nano_aural_runtime_controlfoley/condition_cache.py:717-735 | a concrete full store rejects what it just wrote and keeps an older entry |
| DiskStore.InvalidationEmpties | src/nano_aural_runtime_controlfoley/condition_cache.py:470-481 | after an invalidation nothing of the deployment can be served, and other deployments are unaffected |
| DiskStore.Store.Cleanup | src/nano_aural_runtime_controlfoley/condition_cache.py:493-552 | the four phases compute the specified cleanup |
| DiskStore.Store.EnforceLimits | src/nano_aural_runtime_controlfoley/condition_cache.py:717-735 | quarantine, sort and pop loop keep exactly the survivors and never pop from an empty list |
| DiskStore.Store.Get | src/nano_aural_runtime_controlfoley/condition_cache.py:381-401 | the method is the specified read |
| DiskStore.Store.Put | src/nano_aural_runtime_controlfoley/condition_cache.py:403-462 | the method is the specified put |
| DiskStore.Store.AwaitMetadata | src/nano_aural_runtime_controlfoley/condition_cache.py:436-444 | the polling loop for another process's metadata |
| DiskStore.Store.InvalidateDeployment | src/nano_aural_runtime_controlfoley/condition_cache.py:470-481 | the loop deletes the deployment's and the unparsable records and clears its fuse |
| SafeTensor.SortedScanDecides | src/nano_aural_runtime_controlfoley/safe_tensor.py:163-170 | sorting the ranges and scanning with a cursor accepts exactly the partitions of the data, in any order of tensors |
| SafeTensor.ExactProduct | src/nano_aural_runtime_controlfoley/safe_tensor.py:153-158 | the early exit fails only when the full product exceeds the data |
| SafeTensor.ValidateDescriptor | src/nano_aural_runtime_controlfoley/safe_tensor.py:131-162 | a descriptor is accepted exactly when typed, positive, in bounds and exactly as long as its dtype and shape say |
| SafeTensor.ValidateHeader | src/nano_aural_runtime_controlfoley/safe_tensor.py:119-171 | a decoded header is accepted exactly when its metadata is sealed, every descriptor fits and the ranges partition the data |
| SafeTensor.Validate | src/nano_aural_runtime_controlfoley/safe_tensor.py:89-171 | the whole validator accepts exactly the accepted payloads and returns their tensors and data |
| SafeTensor.PackRoundTrip | src/nano_aural_runtime_controlfoley/safe_tensor.py:86-107 | the length prefix reads back |
| SafeTensor.BuildRoundTrips | src/nano_aural_runtime_controlfoley/safe_tensor.py:57-86 | over a codec that carries its one header, a built bundle validates exactly when the tensor is not named `__metadata__`, and then gives the value back |
| SafeTensor.LosslessCodecExists | src/nano_aural_runtime_controlfoley/safe_tensor.py:57-86 | a codec that carries every header a bundle can have |
| FakeBackend.ProperFakeExists | src/nano_aural_runtime_controlfoley/staged.py:858-1076 | a fake backend with 32-byte digests and such a codec, to which the next two rows apply |
| FakeBackend.FeatureCodecRoundTrips | src/nano_aural_runtime_controlfoley/staged.py:992-1040 | importing an exported feature gives it back for every role of the task |
| FakeBackend.FakeIsFaithful | src/nano_aural_runtime_controlfoley/staged.py:858-1076 | the deterministic fake backend is one of the backends the transparency theorem covers |
| BackendSessions.SessionsAreConserved | src/nano_aural_runtime_controlfoley/adapter.py:786-795 | over any loads and unloads, also raising ones, the adapter's and the staged path's tables stay in step and each backend session handed out is live once or given back once |
| BackendSessions.NothingLeaks | src/nano_aural_runtime_controlfoley/adapter.py:1125-1139 | with no session left, each backend session was given back exactly as often as handed out |
| BackendSessions.Adapter.LoadBackend | src/nano_aural_runtime_controlfoley/staged.py:561-610 | a load whose contract checks fail gives the session back and registers nothing |
| BackendSessions.Adapter.LoadStaged | src/nano_aural_runtime_controlfoley/adapter.py:710-795 | the four tables are filled together, only after the staged path loaded |
| BackendSessions.Adapter.Unload | src/nano_aural_runtime_controlfoley/adapter.py:1125-1139 | all tables forget the session whether or not the backend raises |
| Ledger.ReserveAdvances | src/nano_aural_runtime/durable/publication.py:187-226 | a reservation returns the one row of its attempt and kind, existing or fresh, and keeps the table's constraints |
| Ledger.RecordObjectAdvances | src/nano_aural_runtime/durable/publication.py:228-259 | recording an object advances one row under the lease and version check |
| Ledger.RecordValidatedAdvances | src/nano_aural_runtime/durable/publication.py:261-330 | validation advances one row whose evidence equals the blob |
| Ledger.RejectAdvances | src/nano_aural_runtime/durable/publication.py:633-660 | rejection terminates one live row of the current lease |
| Ledger.AbandonAdvances | src/nano_aural_runtime/durable/publication.py:339-390 | a row is abandoned or put into grace only if live and without a current lease, abandoned only after the grace period, and the table's constraints are kept |
| Ledger.FinalizeAdvances | src/nano_aural_runtime/durable/publication.py:392-500 | finalization changes exactly rows passed to it, from validated to final, under a current lease that it ends |
| Ledger.FinalizeIsComplete | src/nano_aural_runtime/durable/publication.py:428-434 | a successful finalization turns final exactly one row of each required kind, and none of another |
| Ledger.CompleteSetFinalizes | src/nano_aural_runtime/durable/publication.py:392-434 | a current lease's complete set of validated, current rows, each passed once, finalizes |
| Ledger.TransitionsOpen | src/nano_aural_runtime/durable/publication.py:228-390 | each transition succeeds for a row in its state under the lease and version it asks for, and abandonment exactly after the grace period |
| PublicationComplete.FinalizedAttemptsAreComplete | src/nano_aural_runtime/durable/publication.py:392-500 | in every interleaving a finalized record's attempt has a finalized record of every required kind |
| PublicationSafety.ValidatedIsCanonical | src/nano_aural_runtime/durable/artifact_publication.py:183-365 | in every interleaving a validated or finalized record has a canonical object with exactly its evidence, accepted by the validator and within the sealed bounds |
| PublicationSafety.FinalizesVerifiedRecords | src/nano_aural_runtime/durable/artifact_publication.py:183-200 | finalize is called only with records seen validated whose canonical bytes were re-hashed, finalizes exactly those, one of each required kind, and ends the lease |
| PublicationSafety.OneFinalizationPerLease | src/nano_aural_runtime/durable/publication.py:392-500 | after a finalization, whatever runs, no call to finalize under that lease succeeds |
| PublicationSafety.DeletionIsSafe | src/nano_aural_runtime/durable/artifact_publication.py:387-511 | an attempt object disappears only if its record is terminal or never existed; canonical objects never disappear |
| PublicationSafety.TerminalForever | migrations/0004_artifact_publications.sql:128-196 | evidence once recorded and a terminal state once reached never change |
| PublicationSafety.LiveObjectsNeverDrift | src/nano_aural_runtime/durable/artifact_publication.py:273-321 | what a thread validates or promotes for a live record is what the record says |
| PublicationSafety.StepKeeps | src/nano_aural_runtime/durable/artifact_publication.py:183-511 | every step of workers, sweepers, leases and clock keeps the protocol's invariant |
| PublicationStarvation.StarvationIsReachable | src/nano_aural_runtime/durable/publication.py:605-622 | for every limit a run of workers and sweeper from the empty ledger after which no sweep with that limit reaches the inventory |
| PublicationLeftover.LeftoverIsReachable | src/nano_aural_runtime/durable/artifact_publication.py:202-258 | a concrete run of two threads of one attempt ends with an object written after its record was finalized and cleaned |
| OrphanSweep.Query | src/nano_aural_runtime/durable/publication.py:541-554 | the limited, ordered query returns the earliest matching records, each once |
| OrphanSweep.SweepTerminal | src/nano_aural_runtime/durable/artifact_publication.py:412-421 | the first stage visits the earliest terminal, uncleaned records |
| OrphanSweep.SweepOrphans | src/nano_aural_runtime/durable/artifact_publication.py:422-449 | the second stage visits the earliest orphan rows within the remaining limit |
| OrphanSweep.SweepInventory | src/nano_aural_runtime/durable/artifact_publication.py:450-499 | the third stage visits exactly the page's old objects without a recorded key, and advances the cursor |
| OrphanSweep.InventoryCovers | src/nano_aural_runtime/durable/artifact_storage.py:257-314 | from any cursor, sweeps that leave the inventory room scan every position of the journal within twice its length of sweeps |
| OrphanSweep.Sweep | src/nano_aural_runtime/durable/artifact_publication.py:408-499 | a sweep visits at most `limit` records; it reaches the inventory exactly when the backlog of the two queries leaves room, and then visits the whole backlog; it counts the objects that are gone and were not recorded as cleaned before |
| OrphanSweep.SweepIsSafe | src/nano_aural_runtime/durable/artifact_publication.py:501-511 | visiting any set of records deletes objects of terminal or unknown records only |
| OrphanSweep.VisitSweeps | src/nano_aural_runtime/durable/artifact_publication.py:432-449 | abandon, delete and record together come to one row change and one deletion |
| OrphanSweep.CleanedFailuresStarveInventory | src/nano_aural_runtime/durable/publication.py:605-622 | `limit` old cleaned failures keep every later sweep from the inventory |
| OrphanSweep.LeftoverInReachIff | src/nano_aural_runtime/durable/publication.py:541-622 | an old leftover of a terminal record is in reach of a sweep exactly unless the record is finalized and cleaned |
| OrphanSweep.FinalizedLeftoverStays | src/nano_aural_runtime/durable/artifact_publication.py:408-499 | no sweep removes a leftover of a finalized, cleaned record |
| OrphanSweep.AbandonedLeftoverIsSwept | src/nano_aural_runtime/durable/artifact_publication.py:422-499 | an object written after its record was abandoned and cleaned is removed by the next sweep that reaches the inventory |
| SessionLifecycle.SingleFlight | src/nano_aural_runtime/session.py:73-121 | over any threads, one adapter call at a time; RUNNING exactly while the lock holder is in its invocation; unload never overlaps |
| SessionLifecycle.FinishNeverRaises | src/nano_aural_runtime/runtime.py:34-108 | the transitions after an adapter call always find the state the call put the session in |
| SessionLifecycle.NothingStranded | src/nano_aural_runtime/runtime.py:34-108 | when all threads are done the lock is free and the session is not LOADING, RUNNING or UNLOADING |
| SessionLifecycle.SomeoneProgresses | src/nano_aural_runtime/session.py:102-121 | while a thread is not done some thread's next step brings it closer to its end |
| SessionLifecycle.CancelledNeverRuns | src/nano_aural_runtime/session.py:102-113 | a caller cancelled before its check under the lock never enters the adapter, in any continuation |
| SessionLifecycle.InvokerConcludes | src/nano_aural_runtime/runtime.py:68-94 | in every run, a call of the adapter ends, and leaves the session READY or FAILED, as its outcome and the token demand |
| SessionLifecycle.ModelSession.AcquireInvocation | src/nano_aural_runtime/session.py:102-113 | the lock is held and the session RUNNING exactly when nothing was cancelled and it was READY |
| SessionLifecycle.ModelSession.FinishInvocation | src/nano_aural_runtime/session.py:115-121 | the lock is released on every path |
| SessionLifecycle.ModelSession.Invoke | src/nano_aural_runtime/runtime.py:55-94 | every exception path leaves the lock free, and ending and state are those of the adapter's outcome, one by one |
| SessionLifecycle.ModelSession.Load | src/nano_aural_runtime/runtime.py:34-53 | a load ends READY or FAILED |
| SessionLifecycle.ModelSession.Unload | src/nano_aural_runtime/runtime.py:96-108 | an unload ends UNLOADED or FAILED, from READY or FAILED only |
| RuntimeOwner.TeardownExcludes | integrations/comfyui/embedded.py:238-299 | at most one runtime is built; close never overlaps an invocation or another close; the active count is exact |
| RuntimeOwner.LeaseGrantedIff | integrations/comfyui/embedded.py:238-256 | a lease is granted exactly on an open, safe owner whose runtime exists or can be built; it is on the one runtime, and counts |
| RuntimeOwner.NoLeaseAfterUnsafe | integrations/comfyui/embedded.py:238-271 | once closed or unsafe no lease starts and nothing is built, ever |
| RuntimeOwner.FailedCloseIsRetryable | integrations/comfyui/embedded.py:273-299 | a failed close keeps the handle and frees the owner for another close; a successful one closes it |
| RuntimeOwner.ClosedIsPermanent | integrations/comfyui/embedded.py:273-299 | closed stays closed, without runtime or invocation |
| RuntimeOwner.NoLostWakeup | integrations/comfyui/embedded.py:273-299 | a sleeping thread's condition is still unmet, and some thread is awake while work remains |
| RuntimeOwner.InterruptedWaitStrands | integrations/comfyui/embedded.py:279-284 | after an interrupt of a closer's wait the owner is closing for ever and never closed |
| RuntimeOwner.StrandedIsReachable | integrations/comfyui/embedded.py:279-284 | a run of one invocation and one interrupted close that gets there |
| RuntimeOwner.SomeoneProgresses | integrations/comfyui/embedded.py:238-299 | unless a closer was interrupted, while a thread is not done some thread's next step brings it closer to its end |
| RuntimeOwner.EmbeddedRuntimeOwner.BeginLease | integrations/comfyui/embedded.py:238-255 | the lease's critical section is the specified step |
| RuntimeOwner.EmbeddedRuntimeOwner.BeginClose | integrations/comfyui/embedded.py:273-284 | the closer's first critical section is the specified step |
| RuntimeOwner.EmbeddedRuntimeOwner.EndClose | integrations/comfyui/embedded.py:285-299 | the closer's last critical section is the specified step |
| FileSetPublication.PublishCollection | tools/release_artifacts.py:646-689 | whatever others do between its steps, it replaces no entry and rewrites no file of theirs, and a file it removes was theirs exactly when they had put it under that name, at a target exactly when it had taken the freed inode; left alone, for every step at which an exception can occur, all targets with exact bytes or the directory as it was, refused up front exactly on a repeated or existing name, an interrupt not undone |
| FileSetPublication.StageAll | tools/release_artifacts.py:659-672 | after the first phase, left alone, every temporary holds its artifact's bytes; the record of what others did is right in any case |
| FileSetPublication.LinkAll | tools/release_artifacts.py:673-678 | targets are linked in order, never over an existing name, and an inode that changed meanwhile raises |
| FileSetPublication.RollbackTargets | tools/release_artifacts.py:631-638 | left alone, the rollback removes exactly the targets linked so far; in any case only what still shows the linked inode |
| FileSetPublication.InterferenceSound | tools/release_artifacts.py:619-697 | any actions of others between two steps keep the record of names taken over and inodes reused exact |
| FileSetPublication.FooledIffUnpinned | tools/release_artifacts.py:631-638 | others who leave given names alone can get a file of theirs removed through a target if and only if none of those names links our file and it is not held open |
| FileSetPublication.FooledIffTemporaryDropped | tools/release_artifacts.py:625-638 | others who touch nothing but a target can do so if and only if its temporary has been dropped, which the rollback does first |
| FileSetPublication.TemporaryTakenIff | tools/release_artifacts.py:625-630 | the unlink of a temporary can take a file of others if and only if they do not leave its name in place |
| EventPaging.PageAdvances | src/nano_aural_runtime/durable/application.py:319-343 | a page is the next matches without gap or repetition, with a next cursor exactly when matches remain |
| EventPaging.MatchingAfter | src/nano_aural_runtime/durable/application_adapters.py:58-88 | querying after the k-th match gives the matches from k on |
| EventPaging.MatchesExactly | src/nano_aural_runtime/durable/application_adapters.py:70-75 | an event matches exactly when it is in the log, of this job, of a requested kind and after the cursor |
| EventPaging.PageMembers | src/nano_aural_runtime/durable/application.py:319-343 | a page holds only such events |
| EventPaging.AppendKeepsPosition | src/nano_aural_runtime/durable/application_adapters.py:58-88 | appending events moves no reader's position |
| EventPaging.EmittedCursorIsValid | src/nano_aural_runtime/durable/application.py:327-334 | every emitted cursor is accepted by the validator and stands for its event |
| EventPaging.ReadAll | src/nano_aural_runtime/durable/application.py:319-343 | following next cursors ends and returns exactly the job's events of the requested kinds, once and in order |
| EventPaging.Wait | integrations/comfyui_remote/nodes.py:719-773 | the node returns the last 256 types of a gap-free prefix of the growing log, within its poll and time bounds |
| ProfileRecorder.OkReportAddsUp | src/nano_aural_runtime_controlfoley/profile.py:506-597 | an ok report has exactly the ordered stages, and their nanoseconds add up to at most the total, for any clock |
| ProfileRecorder.OkReportIsExact | src/nano_aural_runtime_controlfoley/profile.py:506-597 | an ok report times each observation by its own two readings and the whole by the first and last |
| ProfileRecorder.CudaAllOrNone | src/nano_aural_runtime_controlfoley/profile.py:507-597 | with tokens from every begin, CUDA figures are on every stage or on none |
| ProfileRecorder.CudaUniformIffTokens | src/nano_aural_runtime_controlfoley/profile.py:507-537 | in an ok report with CUDA available, figures are on every stage or on none exactly when every begin returned a token or none did |
| ProfileRecorder.MixedReportExists | src/nano_aural_runtime_controlfoley/profile.py:507-597 | a concrete run with an ok report whose stages disagree |
| ProfileRecorder.ControlFoleyProfileRecorder.ObserveStage | src/nano_aural_runtime_controlfoley/profile.py:506-537 | the context manager computes the specified observation |
| ProfileRecorder.ControlFoleyProfileRecorder.FinishReport | src/nano_aural_runtime_controlfoley/profile.py:539-597 | the method computes the specified report |
| SpdxGraph.EmittedIsExpected | tools/release_security_audit.py:785-805 | for every set of usable dependencies the emitted relationship set equals the set recomputed from the packages' declared groups |
| SpdxGraph.EmittedStands | tools/release_security_audit.py:1130-1146 | the emitted graph holds the two roots and, for each declared dependency, the one relation in the one direction that its group class stands for, and nothing else |
| SpdxGraph.GroupStands | tools/release_security_audit.py:1130-1146 | which relation and direction a group stands for, class by class, a test extra being one with the part "test" between hyphens |
| SpdxGraph.BuiltPackagesAreSealed | tools/release_security_audit.py:1032-1046 | every container dependency built passes the sealed-version check |
| SpdxGraph.BuiltIsValidIff | tools/release_security_audit.py:981-1050 | the built graph validates exactly when the package ids are distinct |
| SpdxGraph.Validate | tools/release_security_audit.py:981-1050 | the validator's loops decide the specified validity |
| SpdxGraph.Build | tools/release_security_audit.py:735-805 | the builder succeeds exactly on usable dependencies with distinct ids, and emits the specified document |

## Left out

- CacheTransparency.CacheIsTransparent: equality is on stage payloads and artifact, not on evidence, which names the cache level; inputs are taken not to change and change back between two comparisons (A-B-A).
- CacheFailClosed.FailedInvocationsLeaveNothing: assumes the store's answers are honest, which `DiskBacked.DiskPutIsHonest` proves of the disk store; entries of a process that ends with an invocation still in flight count as those of an earlier process; another reader may hit an entry between its commit and a later rollback, and L0/L1 writes are not rolled back, as in the code.
- DiskStore.CleanupRespectsLimits: bounds the sizes recorded in metadata; data files without metadata are bounded by the grace period only, as in the code.
- DiskStore.Store.Cleanup: the counters of evictions, corruptions and removals are not modelled; calls that raise in the middle are the facade's arbitrary faults.
- OrphanSweep.Sweep: runs without interference; interleavings are the subject of `PublicationRuns`. The three-stage sweep of the in-memory attempt store is not modelled.
- EventPaging.Wait: assumes that events of a job become visible in the order of their ids.
- SessionLifecycle.SingleFlight: interruptions between a lock's acquisition and the following `try` are not modelled.
- SpdxGraph.Build: the relationship graph and the sealed-version check only; package order, licences, the document namespace and the other field checks are flat comparisons.
- FileSetPublication.PublishCollection: a name or inode handed out by `mkstemp` that others have taken meanwhile counts as `mkstemp` raising; all files are on one device, and each system call is one step, the rollback's stat and unlink of a target together.
- File permissions, symbolic links and fsync durability: a directory is a map from names to files, and calls may fail.
- The PostgreSQL queries of the lease queue, the upload workflow and the HTTP transport: foreign I/O; the publication ledger is modelled at the level of its transitions and table constraints.
- The evidence-set publisher of the security audit: it repeats the file-set publication with rollback by name and without the identity check.
- Torch and CUDA stages, audio probing, subprocess workers, manifests, catalogs, the Stable Audio and Woosh adapters and command lines: flat checks or foreign calls.
- The JSON text format and regular expressions: a codec between texts and values is a parameter where it matters.
