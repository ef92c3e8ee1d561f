# GigaEvo: a verified model of the program store and the co-evolution protocol

GigaEvo evolves programs with many asynchronous workers that share a Redis
store, and can set several populations against each other. This project models
the parts of it whose correctness depends on interleavings, caches and
denormalised indices, and proves what they promise. `dafny verify dfyconfig.toml`
covers the whole project.

The modules, from the store upwards:

- **ProgramStates, Programs** - lifecycle states, their merge, and the additive
  merge of two copies of a program. The state merge is described as a join; it
  is not one. Queued, Running and Done beat each other in a cycle, so merging
  is commutative but not associative, and the results below say exactly when
  that is visible.
- **Redis** - blobs, one id set per state and the global counter as a value, and
  the effect of every store operation on it. Each operation has its exact
  condition for keeping the status index. **RedisProgramStorages** is the store
  as an object whose methods are proved against those effects.
- **StoreCalls, Concurrency** - each writing call as what it reads, the stamps it
  draws and what it sends; any number of clients running any of them, interleaved
  at WATCH, GET, INCR or INCRBY, and EXEC or pipeline. The reference is the list of
  committed calls run one after the other. Ownership, which the blind calls ask
  for, is that nobody else commits to a program during a call that writes it.
- **Recovery** - startup recovery, killed and restarted between any two commands.
- **PopulationSnapshots, SnapshotTasks** - the epoch cache in front of the full
  scan: the two kinds of fetch, the object, and any number of tasks around its
  lock, with writes, bumps and errors between any two awaits.
  **SnapshotCoherence** proves the lists fresh over every run that keeps three
  rules, **SnapshotExactness** that none of the rules can be weakened.
  **SnapshotOverlaps** lets writes overlap the fetches and proves what each list
  is worth then, program by program, and exactly when it is not.
- **StateManagers** - the per-program lock table as a step machine, with the
  store writes made under the locks.
- **ProgressSync, DriftProtocol** - the drift-cap hook, and any number of
  populations using it as a protocol with out-of-date readings. The source's
  comment promises that deadlock is impossible and that the cap bounds the lead.
  The first is proved for exact readings, with the readings that break it; the
  second is false, because of the skipped calls and of the work between two
  calls, and the exact bound is proved and shown to be reached. The
  steady-state engine itself calls the hook once, before its loops
  (`gigaevo/evolution/engine/steady_state.py:103-104`); the protocol models the
  repeated calls the hook documents.
- **Ordering, OpponentProviders** - string order and sorting; the plain and the
  cell-stratified choice of opponents.
- **DGTrackers, DGImprovementTrackers, DGTrackerStages** - the five indices of the
  D-G tracker, the tracker object, and the stage that feeds it.
- **CompositionInjections, InjectionRuns** - composing D with G, once per pair: one
  call of the hook, and runs of calls that may stop at any point beside the
  tracker and other writers of G's store.
- **Digraphs, PipelineBuilders, AsymmetricPipelines** - reachability, the pipeline
  builder, and the two rewirings of an adversarial pipeline.
- **Plots** - the two-pointer frontier of the plot command.

Where code and documentation differ, the model follows the code. The places
found: the merge of states is not associative (`JoinIsNotAssociative`); the union
of children keeps a repeated new child twice (`RepeatedNewChildIsKeptTwice`); the
drift can exceed the cap (`BoundIsReached`); "up to k opponents" is one for k
below one (`StratifiedPicksOnePerCell`); the top-k pairs for k = 0 are all of
them (`BestPairsCount`); an unconvertible plot value can raise an index error
(`ComputePerIterationStats`); a repeated id makes the count of a batch by ids
depend on the chunk size (`ChunkSizeIsInvisibleIff`); a program cached twice lets
a missing opponent go unnoticed (`MissIsHiddenIff`); a bump while a fetch is open
lets its list count as current, and a full one can empty the cache under an
incremental fetch so that programs are lost or the call raises (`BumpIsSafeIff`,
`FullBumpLosesPrograms`); a call stopped between storing a composed program and
marking its pair leaves the pair to be composed again (`RepeatsIff`); a program cached as
incomplete and deleted between the two reads of a fetch stays in the list with
old data (`OverlapIsCoherentIff`); a state change whose store call fails leaves a
state in memory that was never stored (`FailureIsHarmlessIff`).

Inputs from outside are parameters: the polls a hook sees, the rows of an
archive, clocks, fresh ids, the code composition, the order of a listing. Floats
are modelled as `real`; NaN appears only where the tracker stage filters it.

## Model

| member | source | states |
|---|---|---|
| ProgramStates.JoinLaws | gigaevo/programs/program_state.py:76-94 | merging two states is commutative and re-merging changes nothing; a discarded program stays discarded |
| ProgramStates.SettledIff | gigaevo/programs/program_state.py:76-94 | a merge leaves the stored state alone exactly when the incoming one is not a valid next state |
| ProgramStates.JoinIsNotAssociative | gigaevo/programs/program_state.py:76-94 | the announced join is not associative: one order of merges ends Done, another Queued |
| ProgramStates.FoldOrderIndependentIff | gigaevo/database/merge_strategies.py:88-89 | the stored state is independent of the commit order of a list of merges exactly when Queued, Running and Done do not all meet, or somebody discards |
| ProgramStates.OrderMattersOtherwise | gigaevo/programs/program_state.py:76-94 | otherwise two orders of the very same merges end in different states |
| Programs.MergeDictByProgTs | gigaevo/database/merge_strategies.py:9-32 | the loop keeps all keys of both sides and, when the incoming copy is not newer, every current value |
| Programs.MergedChildrenDistinctIff | gigaevo/database/merge_strategies.py:35-60 | merged children are free of duplicates exactly when the current ones are and no new child is repeated |
| Programs.RepeatedNewChildIsKeptTwice | gigaevo/database/merge_strategies.py:35-60 | the announced deduplication fails for a new child listed twice |
| Programs.MergeFailsIff | gigaevo/database/merge_strategies.py:63-123 | with equal ids a merge fails exactly on two different names |
| Programs.MergeLosesNothing | gigaevo/database/merge_strategies.py:63-123 | a merge field by field: each dictionary has the keys of both sides and under each the newer side's value, or the only one; the code is the newer side's; the children are the current ones and then every unknown incoming one, in order; nothing else moves but the state, along a valid transition |
| Programs.OldCopyOnlyAdds | gigaevo/database/merge_strategies.py:113-121 | a copy that is not newer can only add: code and stored values stay |
| Programs.RetryIsIdempotentIff | gigaevo/database/redis_program_storage.py:180-210 | re-applying a committed update after any other updates changes at most the state, and nothing exactly when the incoming state is not a next state of the stored one |
| Programs.RetryIsHarmlessWithoutCycle | gigaevo/database/redis_program_storage.py:180-210 | such a retry changes nothing when the live states involved do not close the cycle |
| Programs.RetryCanRequeue | gigaevo/database/redis_program_storage.py:180-210 | the failing run: a retried stale copy sends a finished program back to the queue |
| Redis.IndexInvCounts | gigaevo/database/redis_program_storage.py:277-326 | with an intact index the set sizes, the union of the sets and the stored blobs agree |
| Redis.AddKeepsIndex | gigaevo/database/redis_program_storage.py:135-171 | adding, also over a program in another state, keeps every id in the one set its blob names |
| Redis.RemoveKeepsIndex | gigaevo/database/redis_program_storage.py:230-254 | removing keeps the index and leaves the id in no set |
| Redis.UpdateKeepsIndexIff | gigaevo/database/redis_program_storage.py:180-210 | an update keeps the index exactly when the program is stored and its state does not move |
| Redis.TransitionKeepsIndex | gigaevo/database/redis_program_storage.py:409-484 | an atomic transition keeps the index whatever old state the caller claims |
| Redis.WriteExclusiveKeepsIndexIff | gigaevo/database/redis_program_storage.py:212-228 | the exclusive write keeps the index exactly when the stored state is the program's own |
| Redis.FastKeepsIndexIff | gigaevo/database/redis_program_storage.py:486-517 | the fast path keeps the index exactly when the program carries the new state and is new or stored in the old or the new state |
| Redis.BatchStateAt | gigaevo/database/redis_program_storage.py:519-579 | what a batch of programs leaves of each blob and each set membership: the last mention of a program is stored with the new state and the stamp of its position and nothing else changed, others are untouched |
| Redis.BatchStateKeepsIndexIff | gigaevo/database/redis_program_storage.py:519-579 | it keeps the index exactly when each listed program is new or stored in the old or the new state |
| Redis.BatchIdsBlobs | gigaevo/database/redis_program_storage.py:581-651 | a batch by ids moves exactly the listed ids stored in the old state: each gets the new state and the stamp of its place in the list and is otherwise as it was, and all other blobs stay |
| Redis.BatchIdsSets | gigaevo/database/redis_program_storage.py:581-651 | the moved ids change sets and every other membership stays |
| Redis.BatchIdsKeepsIndex | gigaevo/database/redis_program_storage.py:581-651 | it always keeps the index |
| Redis.ChunkedRefinesOneShot | gigaevo/database/redis_program_storage.py:96-100 | where no id is moved twice, or the two states are one, every chunk size gives the same database and count |
| Redis.ChunkSizeIsInvisibleIff | gigaevo/database/redis_program_storage.py:581-651 | chunked and one-shot passes agree for all chunk sizes exactly when the two states are one or no id stored in the old state is listed twice |
| RedisProgramStorages.RedisProgramStorage.Add | gigaevo/database/redis_program_storage.py:135-171 | refuses in read-only mode, else stores the program with the next stamp and moves its id from the set of its stored state to that of its own; the status index is kept |
| RedisProgramStorages.RedisProgramStorage.Remove | gigaevo/database/redis_program_storage.py:230-254 | refuses in read-only mode, else deletes the program and its entry in the set of its stored state, and nothing else; the status index is kept |
| RedisProgramStorages.RedisProgramStorage.Size | gigaevo/database/redis_program_storage.py:287-296 | with an intact index the sum of the set sizes is the number of programs |
| RedisProgramStorages.RedisProgramStorage.GetAllProgramIds | gigaevo/database/redis_program_storage.py:320-326 | with an intact index the union of the sets is the stored ids |
| RedisProgramStorages.RedisProgramStorage.Update | gigaevo/database/redis_program_storage.py:180-210 | one uninterrupted update stores a new program as it came and otherwise the merge of the two copies, key by key and field by field, with the next stamp, or fails without a write exactly when the stored copy has another id or a second name; a success keeps the index exactly when the program was stored in a state it does not move |
| RedisProgramStorages.RedisProgramStorage.AtomicStateTransition | gigaevo/database/redis_program_storage.py:409-484 | one uninterrupted transition stores what an update would and moves the id from the claimed and the stored old state to the one now stored, so it always keeps the index |
| RedisProgramStorages.RedisProgramStorage.WriteExclusive | gigaevo/database/redis_program_storage.py:212-228 | stamps and writes without a merge; the index survives exactly when the program was stored in its own state |
| RedisProgramStorages.RedisProgramStorage.FastStateTransition | gigaevo/database/redis_program_storage.py:486-517 | stamps, writes and moves the id; the index survives exactly when the program carries the new state and was new or stored in the old or new one |
| RedisProgramStorages.RedisProgramStorage.BatchTransitionState | gigaevo/database/redis_program_storage.py:519-579 | for every chunk size the loop stores each program as last listed, with the new state and the stamp of its place and nothing else changed, and moves exactly the listed ids; it rejects a forbidden transition, and keeps the index exactly when every listed program is new or stored in the old or new state |
| RedisProgramStorages.RedisProgramStorage.BatchTransitionByIds | gigaevo/database/redis_program_storage.py:581-651 | for every chunk size, repeated ids included, exactly the listed programs stored in the old state get the new state and a fresh stamp, nothing else of them or of any other program changes, and their ids move; the count is that of the chunked pass, and the index is always kept |
| RedisProgramStorages.RedisProgramStorage.RecoverStrandedPrograms | gigaevo/database/redis_program_storage.py:731-770 | empties the RUNNING set, requeues exactly its stored ids with nothing but their state and a fresh stamp changed, touches nothing else and returns their number |
| Concurrency.Serialisable | gigaevo/database/redis_program_storage.py:180-254 | after any interleaving of all writing calls the blobs and sets are those of the committed calls run serially in commit order, each merge succeeding on what was stored then; of the blind calls only those that read first need own what they read |
| Concurrency.CountersAreUniqueAndBounded | gigaevo/database/redis_program_storage.py:150-634 | whoever owns what, all stamps ever drawn, ranges included, are distinct and bounded by the counter, no two commits share one, and every new stored counter was drawn by a commit that wrote the program |
| Concurrency.StampsIncreasePerKey | gigaevo/database/redis_program_storage.py:409-517 | under ownership the commits to one program, of any kind, carry strictly increasing stamps |
| Concurrency.ExecFailsIff | gigaevo/database/redis_program_storage.py:183-208 | an EXEC is refused exactly when another write to the key committed after the WATCH |
| Concurrency.WritesOnlyAdd | gigaevo/database/merge_strategies.py:113-121 | while only merging calls write an owned program, between any two points of a run nothing of it disappears or changes value, and a change raises its counter |
| Concurrency.NoLostUpdate | gigaevo/database/redis_program_storage.py:180-210 | every key, child and name a committed merging call brought to an owned program is stored at every later point until a blind call writes that program: with the value brought where the key was new, with the value found where it was not |
| Concurrency.AnyEditCanBeBrought | gigaevo/database/redis_program_storage.py:173-210 | the runs leave nothing out: an idle client can fetch any stored program, change anything of it but its counter, and start any call with it |
| Concurrency.IndexHoldsThroughoutIff | gigaevo/database/redis_program_storage.py:135-651 | the status index holds in every state of a run of all writing calls exactly when every commit finds the state it trusts: an update or exclusive write the state it keeps, fast and batch calls the old state given, add, remove and batch by ids the state they read |
| Concurrency.OwnedReadsAreSafe | gigaevo/database/redis_program_storage.py:135-634 | under ownership add, remove and the batch by ids always find it |
| Concurrency.LowersIff | gigaevo/database/redis_program_storage.py:212-228 | without ownership a commit stores a lower stamp than the one it overwrites exactly when that one was drawn later and committed since |
| Concurrency.OvertakenStoresLower | gigaevo/database/redis_program_storage.py:212-228 | the run that does it: of two exclusive writers the one with the lower stamp commits last |
| StoreCalls.CurrentIsSerial | gigaevo/database/redis_program_storage.py:180-254 | a call whose reads are still true sends exactly what the call alone would do now |
| StoreCalls.SentIsSafeIff | gigaevo/database/redis_program_storage.py:135-651 | whatever a call has read and however long ago, it keeps the index exactly when it is safe on what is stored when it writes |
| StoreCalls.AloneDraws | gigaevo/database/redis_program_storage.py:135-634 | a call draws one stamp for every program it stores, none for a removal, and one for a merge that fails |
| Recovery.CrashesDoNotMatter | gigaevo/database/redis_program_storage.py:731-770 | killing and restarting recovery any number of times between any commands ends as one undisturbed recovery does: the stranded programs queued with a fresh stamp and otherwise as they were, everything else untouched |
| Recovery.CanAlwaysFinish | gigaevo/database/redis_program_storage.py:731-770 | killed at any point of any run, recovery can be started again in any order, gets through, and reports the number of stored programs it found in the RUNNING set |
| Recovery.RecoveryRestoresIndexIff | gigaevo/database/redis_program_storage.py:731-770 | the index holds after recovery exactly when the start differed from an intact one only in the RUNNING set |
| Recovery.IndexInvIsRecoverable | gigaevo/database/redis_program_storage.py:731-770 | an intact index is such a start |
| PopulationSnapshots.RefreshedByParts | gigaevo/database/program_storage.py:100-132 | the stepwise incremental refresh is the pointwise one |
| PopulationSnapshots.IncrementalAgreesIff | gigaevo/database/program_storage.py:100-132 | an incremental fetch agrees with the full scan exactly when no stored program cached as Done or Discarded changed its data |
| PopulationSnapshots.DataIs | gigaevo/database/program_storage.py:62-68 | what an incremental bump promises not to have changed: every field but the lifecycle state and the stamp |
| SnapshotCoherence.FetchingReadsAreCoherent | gigaevo/database/program_storage.py:56-137 | over every run of tasks, writes and bumps that keeps the three rules - no write while a fetch reads, no bump in an open fetch, no changed data behind an incremental bump of a program cached as Done or Discarded - each list returned is the data of one full scan at or after the last bump before its call, and no call raises |
| SnapshotExactness.BumpIsSafeIff | gigaevo/database/program_storage.py:56-98 | announcing a change by a bump is safe, for every change such a bump may announce, exactly when no fetch is between its first answer and its storing |
| SnapshotExactness.IncrementalBumpIsSafeIff | gigaevo/database/program_storage.py:56-72 | with no fetch open an incremental bump is safe exactly when no stored program cached as Done or Discarded has changed its data |
| SnapshotExactness.WriteIsSafeIff | gigaevo/database/program_storage.py:100-132 | a write while a fetch is open leaves its list that of one scan, whatever is written, exactly when the fetch has read all it needs |
| SnapshotExactness.FullBumpLosesPrograms | gigaevo/database/program_storage.py:100-132 | a full bump while an incremental fetch waits for its programs: the call raises if it has an id to delete, else every program it did not ask for is missing from the list later calls get |
| SnapshotOverlaps.OverlappedReadsAreCoherent | gigaevo/database/program_storage.py:74-132 | with writes at any time during the fetches and bumps in order, each listed program has the data of a version at or after the last bump before the call, and every program stored since then is listed, while no program cached older than the bump vanishes before it is read again |
| SnapshotOverlaps.OverlapIsCoherentIff | gigaevo/database/program_storage.py:112-132 | from any such state the lists to come are so, whatever the tasks do, exactly when no cached program to be read again has vanished with older data cached |
| SnapshotOverlaps.DeletionOutdates | gigaevo/database/program_storage.py:112-132 | the write that does it: deleting such a program between the two reads |
| PopulationSnapshots.FullThenIncrementalBumpServesStaleData | gigaevo/database/program_storage.py:68-72 | a full bump followed by an incremental one rebuilds the id cache from old data |
| PopulationSnapshots.PopulationSnapshot.Bump | gigaevo/database/program_storage.py:56-72 | the method on the object, against the value form |
| PopulationSnapshots.PopulationSnapshot.PrepareIdCache | gigaevo/database/program_storage.py:134-137 | the id cache is the cached list by id |
| PopulationSnapshots.PopulationSnapshot.PlanRefresh | gigaevo/database/program_storage.py:112-124 | the planned ids and the kept cached ones are together the ids read and the deleted ones none of them; exactly the listed programs cached as Done or Discarded are not asked for |
| PopulationSnapshots.PopulationSnapshot.ApplyRefresh | gigaevo/database/program_storage.py:125-132 | overwrites and deletes in place, and raises exactly when an id to delete is gone from the cache by then |
| PopulationSnapshots.PopulationSnapshot.IncrementalUpdate | gigaevo/database/program_storage.py:100-132 | edits the id cache in place to the refreshed one, the ids read from one database and the programs from a later one |
| PopulationSnapshots.PopulationSnapshot.GetAll | gigaevo/database/program_storage.py:74-98 | serves the cache within its epoch, or lists and stores what it fetched: a full fetch every program as it is stored, an incremental one those cached as Done or Discarded as cached and all others as stored, with exactly the excluded fields emptied |
| SnapshotTasks.OneFetchPerEpoch | gigaevo/database/program_storage.py:74-98 | however many tasks call at once, one epoch costs at most one fetch and all get its list |
| StateManagers.MutualExclusion | gigaevo/database/state_manager.py:28-29 | at most one task is inside the lock of an id in every state of every run whose evictions happen without a waiter, whichever store calls fail |
| StateManagers.ExclusionNeedsQuietEvictions | gigaevo/database/state_manager.py:123-127 | an eviction without a waiter keeps the locks sound, and one with a waiter can lose exclusion in three steps |
| StateManagers.EveryChangeIsAValidEdge | gigaevo/database/state_manager.py:83-127 | in those runs, store calls that fail harmlessly included, every step keeps the status index and moves programs only along allowed transitions |
| StateManagers.NoWriteIff | gigaevo/database/state_manager.py:88-105 | in every state of those runs a state change ends without a write exactly when the stored program is there already or may not go there |
| StateManagers.EvictedIsStoredTerminal | gigaevo/database/state_manager.py:125-127 | a lock is only ever dropped for a program stored in a terminal state |
| StateManagers.WriteKeepsIndex | gigaevo/database/state_manager.py:57-76 | under the lock the store writes keep the index |
| StateManagers.CommitIsTheFastPath | gigaevo/database/state_manager.py:57-105 | every write made under a lock is the store fast path from the state really stored, or its exclusive write in that state, with a stamp of its own |
| StateManagers.CommitStoresTheChange | gigaevo/database/state_manager.py:57-127 | in every such run what a call finally stores is the program it found in memory with its result under the stage, or in its new state, a newer stamp and nothing else changed, whoever else worked in between; the lock goes exactly after a change to Done or Discarded |
| StateManagers.CounterCountsDraws | gigaevo/database/redis_program_storage.py:212-228 | over every run of the locks the counter advances by one for each write that is stamped, failed ones included |
| StateManagers.FailureIsHarmlessIff | gigaevo/database/state_manager.py:103-114 | a store call that raises under the lock leaves every later claim true and the index kept, whatever follows, exactly when its write arrived after all or was no change of state |
| ProgressSync.Configure | gigaevo/adversarial/sync.py:73-130 | which settings are accepted, and which cap and period they mean |
| ProgressSync.DriftIsLeadOverEveryOpponent | gigaevo/adversarial/sync.py:190-193 | the drift is within the cap exactly when no opponent reads more than the cap behind |
| ProgressSync.OneCheckPerPeriod | gigaevo/adversarial/sync.py:208-227 | of K calls in a row exactly the last is not skipped, and the counters return to the start |
| ProgressSync.ProgressBasedSyncHook.Call | gigaevo/adversarial/sync.py:199-281 | a call is skipped, sets the baseline or checks as its counters say; a check returns at the first poll in which no opponent reads more than the cap behind, an unreadable snapshot counting as zero, or at the first other poll past the timeout, and sleeps before that |
| DriftProtocol.DriftIsBounded | gigaevo/adversarial/sync.py:199-281 | for any number of populations, any progress made before the first hook call and any missed readings, no lead exceeds max(cap + K B, seeds + (2K - 1) B) |
| DriftProtocol.ProtocolIsTheHook | gigaevo/adversarial/sync.py:229-281 | on the snapshots a polling population finds along any run, missing ones included, a check of the hook returns exactly when the protocol lets the population go on, and at that poll |
| DriftProtocol.BoundIsReached | gigaevo/adversarial/sync.py:52-60 | for every setting some run reaches that bound, which is more than the documented cap |
| DriftProtocol.BlockedIff | gigaevo/adversarial/sync.py:232-251 | with exact readings a population keeps polling exactly when it waits for an opponent more than the cap behind |
| DriftProtocol.WaitsGoDownhill | gigaevo/adversarial/sync.py:9-17 | progress strictly falls along a chain of waits, so no chain is a cycle |
| DriftProtocol.ChainsEndUnblocked | gigaevo/adversarial/sync.py:9-17 | every blocked population heads a chain of waits that ends in an unblocked one |
| DriftProtocol.SlowestIsNeverBlocked | gigaevo/adversarial/sync.py:9-17 | the slowest population never waits |
| DriftProtocol.EveryoneGetsThrough | gigaevo/adversarial/sync.py:9-17 | from every state there is a run in which a given waiting population passes its check |
| DriftProtocol.RingNeedsAMisreading | gigaevo/adversarial/sync.py:15-17 | a ring of populations that all keep polling contains a reading below the true progress |
| DriftProtocol.MissingSnapshotsBlockBothIff | gigaevo/adversarial/sync.py:156-188 | two populations that read each other as zero are both stuck exactly when both are past their cap |
| Ordering.SortForgetsOrder | gigaevo/adversarial/opponent_provider.py:249-256 | sorting by a key without ties does not depend on the order of the input |
| Ordering.BeforeIs | gigaevo/adversarial/opponent_provider.py:249-256 | an id comes before another when it is a proper prefix of it or has the smaller character where they first differ |
| OpponentProviders.StratifiedPicksOnePerCell | gigaevo/adversarial/opponent_provider.py:487-567 | the choice has min(k, cells) programs (one for k below one) from distinct cells, each ahead of every other of its cell |
| OpponentProviders.StratifiedIsOptimal | gigaevo/adversarial/opponent_provider.py:487-567 | no choice of that size from distinct cells has a better total fitness |
| OpponentProviders.ChoiceForgetsCacheOrder | gigaevo/adversarial/opponent_provider.py:249-256 | neither choice depends on the order the cache was filled in |
| OpponentProviders.OnePerCellMeansPlainTopK | gigaevo/adversarial/opponent_provider.py:487-497 | with one program per cell the stratified choice is the plain top k |
| OpponentProviders.LoadedIsUsable | gigaevo/adversarial/opponent_provider.py:410-485 | the cache holds exactly the usable rows and knows the cell of each |
| OpponentProviders.LoadedCellsAreOfRows | gigaevo/adversarial/opponent_provider.py:410-485 | the cell on record for a program is that of a usable row with its id |
| OpponentProviders.LoadedPlainIsStored | gigaevo/adversarial/opponent_provider.py:263-312 | the plain cache holds exactly the stored rows with code, a missing fitness counting as 0 |
| OpponentProviders.PlainTopKLeads | gigaevo/adversarial/opponent_provider.py:242-256 | nothing the plain top k leaves out ranks before anything it takes |
| OpponentProviders.RedisOpponentArchiveProvider.GetTopK | gigaevo/adversarial/opponent_provider.py:242-256 | refreshes an empty or stale cache and returns k cached programs, fewer if there are fewer, best first and equal ones by id, such that nothing left out outranks anything returned |
| OpponentProviders.RedisOpponentArchiveProvider.GetProgramsByIds | gigaevo/adversarial/opponent_provider.py:319-334 | returns exactly the cached programs asked for, after a refresh exactly when, with distinct cached ids, some id was not cached |
| OpponentProviders.CacheAnswersIff | gigaevo/adversarial/opponent_provider.py:328-334 | the count test answers from the cache exactly when it holds every id asked for, for all ids, exactly when the cached ids are distinct |
| OpponentProviders.MissIsHiddenIff | gigaevo/adversarial/opponent_provider.py:328-334 | some ids pass the count test while one is missing exactly when a program is cached twice |
| OpponentProviders.CellStratifiedProvider.RefreshCache | gigaevo/adversarial/opponent_provider.py:410-485 | the loop loads the usable rows and their cells |
| OpponentProviders.CellStratifiedProvider.GetTopK | gigaevo/adversarial/opponent_provider.py:487-567 | reloads exactly when the cache is empty or expired, and returns the stratified choice in the direction both flags agree on, best first and equal ones by id |
| DGTrackers.RecordedPair | gigaevo/adversarial/dg_tracker.py:160-253 | what one batch does to the score, wins, resisted, faced and results of a pair |
| DGTrackers.RunPair | gigaevo/adversarial/dg_tracker.py:160-253 | after any run the score of a pair is its largest positive delta, and wins, resisted and faced are the meetings of that kind |
| DGTrackers.RunSets | gigaevo/adversarial/dg_tracker.py:160-276 | after any run the wins, resisted and faced sets are the opponents strictly improved, withstood and met, each once |
| DGTrackers.MaxPositiveIs | gigaevo/adversarial/dg_tracker.py:117-137 | the largest positive delta is attained and bounds all others |
| DGTrackers.FacedIsWonOrResisted | gigaevo/adversarial/dg_tracker.py:255-276 | D has faced G exactly when it won or was resisted |
| DGTrackers.IndicesAgree | gigaevo/adversarial/dg_tracker.py:160-253 | without repeated pairs in a batch the global and the per-G score agree, and a score means a win |
| DGTrackers.ScoresStayEqualIff | gigaevo/adversarial/dg_tracker.py:207-223 | a batch keeps the two scores of a pair equal exactly when its last positive delta is its largest or the stored score is no smaller |
| DGTrackers.RepeatedPairSplitsScores | gigaevo/adversarial/dg_tracker.py:207-223 | a repeated pair can leave the two scores different |
| DGTrackers.BatchOrderDoesNotMatter | gigaevo/adversarial/dg_tracker.py:160-253 | the order of batches does not matter to scores, wins, resisted and faced |
| DGTrackers.PositiveCountIs | gigaevo/adversarial/dg_tracker.py:200-208 | the returned number is the number of entries with a positive delta |
| DGTrackers.ImprovementKeepsScores | gigaevo/adversarial/dg_tracker.py:117-137 | the one-pair write raises the score of its pair and of no other, in both score tables |
| DGTrackers.ImprovementKeepsWinsIff | gigaevo/adversarial/dg_tracker.py:117-137 | the one-pair write leaves scores and wins coinciding exactly when it records no first win |
| DGTrackers.ParseIff | gigaevo/adversarial/dg_tracker.py:329-334 | a pair name splits back into its ids exactly when the D id has no bar |
| DGTrackers.SplitOnceIs | gigaevo/adversarial/dg_tracker.py:329-334 | a name is split exactly when it has a bar, and at its first one |
| DGImprovementTrackers.DGImprovementTracker.RecordBatch | gigaevo/adversarial/dg_tracker.py:160-253 | the loop and the pipeline write the five tables and return the number of positive pairs, or nothing at all exactly when some entry has no "delta" |
| DGImprovementTrackers.DGImprovementTracker.RecordImprovement | gigaevo/adversarial/dg_tracker.py:117-137 | a positive delta raises both scores of its pair to at least it, no other pair changes, wins and faced stay |
| DGImprovementTrackers.DGImprovementTracker.GetBestDForG | gigaevo/adversarial/dg_tracker.py:302-312 | returns a highest-scored D, the greatest id among equals, or none when there is none |
| DGImprovementTrackers.DGImprovementTracker.CountGBeatenByD | gigaevo/adversarial/dg_tracker.py:255-260 | the number of distinct G this D has strictly improved in the recorded meetings |
| DGImprovementTrackers.DGImprovementTracker.CountDResistedByG | gigaevo/adversarial/dg_tracker.py:262-267 | the number of distinct D this G has withstood in them |
| DGImprovementTrackers.DGImprovementTracker.FacedByD | gigaevo/adversarial/dg_tracker.py:269-276 | the G programs this D has met in them, whatever the outcome |
| DGImprovementTrackers.DGImprovementTracker.GetBestPairs | gigaevo/adversarial/dg_tracker.py:320-335 | the loop returns the parsed range of the global set |
| DGImprovementTrackers.BestPairsAreTheBest | gigaevo/adversarial/dg_tracker.py:320-335 | the list falls in score, carries the per-G scores, and no pair outside scores more than one inside |
| DGImprovementTrackers.BestPairsAreDistinct | gigaevo/adversarial/dg_tracker.py:320-335 | the list repeats no pair |
| DGImprovementTrackers.BestPairsCount | gigaevo/adversarial/dg_tracker.py:320-335 | the list has k pairs if there are that many, and all of them for k = 0 |
| DGImprovementTrackers.CleanRunsAgree | gigaevo/adversarial/dg_tracker.py:160-253 | every run of batches without repeated pairs leaves the indices in the agreement those results need |
| DGTrackerStages.EntriesAre | gigaevo/adversarial/dg_tracker_stage.py:197-218 | the recorded entries are exactly the measured opponents, each on its own side of the pair |
| DGTrackerStages.BatchIsDistinctIff | gigaevo/adversarial/dg_tracker_stage.py:197-218 | the batch repeats no pair exactly when no opponent is measured twice |
| DGTrackerStages.BothSidesRecordAlike | gigaevo/adversarial/dg_tracker_stage.py:7-9 | a meeting recorded by the D run and by the G run leaves the same score, win and resistance of the pair |
| DGTrackerStages.StageRecordsPair | gigaevo/adversarial/dg_tracker_stage.py:79-225 | a rejected evaluation records nothing, an accepted one raises only scores of its own program |
| DGTrackerStages.EvaluationsKeepIndicesInStep | gigaevo/adversarial/dg_tracker_stage.py:79-225 | after any run of evaluations that measure no opponent twice the tracker indices agree on every pair |
| DGTrackerStages.DGTrackerStage.Compute | gigaevo/adversarial/dg_tracker_stage.py:79-225 | records exactly what the artifact says of each measured opponent, with the metrics it gives or a bare delta marked valid, D and G in their places; nothing when the payload has the wrong shape, the other population's role or another number of opponents |
| InjectionRuns.AtMostOnce | gigaevo/adversarial/composition_injection.py:97-202 | over runs of calls that may stop anywhere, beside recordings and other writers, the injected-pair set has exactly the names of the compositions that went through, no name twice |
| InjectionRuns.NoPairTwice | gigaevo/adversarial/dg_tracker.py:95-111 | if no call is stopped no two compositions are of one pair, whatever the ids look like |
| InjectionRuns.ComposedAsOftenAs | gigaevo/adversarial/composition_injection.py:179-180 | a pair was composed once if it is marked, and once more for every call that stopped between storing and marking |
| InjectionRuns.RepeatsIff | gigaevo/adversarial/composition_injection.py:179-180 | a pair can come to be composed more than once by calls that run through exactly when some call stopped between storing its child and marking it |
| InjectionRuns.OneProgramPerPair | gigaevo/adversarial/composition_injection.py:167-181 | every composition has a program of its own in the store, kept unless deleted, and there are as many as marked pairs and stopped calls |
| InjectionRuns.ComposedFromTheBest | gigaevo/adversarial/composition_injection.py:119-123 | every composed program is a child of its G, and its D had then improved that G by more than any other D on record |
| InjectionRuns.DedupIff | gigaevo/adversarial/dg_tracker.py:95-111 | a pair is passed over as done exactly when it was composed and marked, for D ids without a bar |
| InjectionRuns.PassIsARun | gigaevo/adversarial/composition_injection.py:97-202 | an undisturbed call of the hook is the run of its programs one by one |
| CompositionInjections.BarsConfusePairs | gigaevo/adversarial/dg_tracker.py:95-111 | with a bar in a D id two pairs share a name |
| CompositionInjections.CountsAddUp | gigaevo/adversarial/composition_injection.py:118-201 | the five outcome counts add up to the programs scanned |
| CompositionInjections.CompositionInjectionHook.InjectAll | gigaevo/adversarial/composition_injection.py:97-202 | each G in turn gets the child composed from its code and that of its best D, greatest id among equals, or the outcome that says why not; the counts add up, and the status index is kept |
| Digraphs.SpliceKeepsReach | gigaevo/adversarial/asymmetric_pipeline.py:275-303 | splicing nodes into a graph keeps reachability between the old ones |
| Digraphs.SpliceKeepsAcyclic | gigaevo/adversarial/asymmetric_pipeline.py:275-303 | and neither makes nor breaks a cycle |
| PipelineBuilders.EdgeKeepsAcyclicIff | gigaevo/entrypoint/default_pipelines.py:95-102 | adding an edge closes a cycle exactly when its destination leads to its source |
| PipelineBuilders.DepKeepsAcyclicIff | gigaevo/entrypoint/default_pipelines.py:114-118 | the same for an execution-order dependency |
| PipelineBuilders.RemovalLeavesTheRest | gigaevo/entrypoint/default_pipelines.py:82-92 | removing a stage removes exactly the arcs at it |
| PipelineBuilders.RemovalKeepsAcyclic | gigaevo/entrypoint/default_pipelines.py:82-92 | so it keeps a pipeline acyclic |
| PipelineBuilders.CutLeaves | gigaevo/entrypoint/default_pipelines.py:104-111 | dropping the edges between two stages leaves every ordering but theirs, and theirs if a dependency asks for it |
| PipelineBuilders.PipelineBuilder.RemoveStage | gigaevo/entrypoint/default_pipelines.py:82-92 | the method drops the stage, every edge at it and every dependency on it, keeping the others in order; exactly the orderings at the stage go |
| PipelineBuilders.PipelineBuilder.RemoveDataFlowEdge | gigaevo/entrypoint/default_pipelines.py:104-111 | drops every edge between the two stages and no other; their ordering stays only if a dependency still asks for it |
| PipelineBuilders.PipelineBuilder.AddDataFlowEdge | gigaevo/entrypoint/default_pipelines.py:95-102 | adds one ordering, and stays acyclic exactly when the destination did not lead to the source |
| PipelineBuilders.PipelineBuilder.AddExecDep | gigaevo/entrypoint/default_pipelines.py:114-118 | adds one ordering, and stays acyclic exactly when the stage did not lead to what it now waits for |
| PipelineBuilders.PipelineBuilder.RemoveExecDep | gigaevo/entrypoint/default_pipelines.py:120-125 | drops every copy of the dependency; its ordering stays only if an edge or a dependency with another condition asks for it |
| AsymmetricPipelines.ParseKeepsOrder | gigaevo/adversarial/asymmetric_pipeline.py:255-307 | inserting the parsing stage keeps reachability between all old stages, and acyclicity both ways |
| AsymmetricPipelines.ParseKeepsProducers | gigaevo/adversarial/asymmetric_pipeline.py:279-303 | every input keeps its number of producers and nobody reads the parsed result from the validator |
| AsymmetricPipelines.InsertParseMetricsStage | gigaevo/adversarial/asymmetric_pipeline.py:255-315 | the rewiring loop on the builder, edge by edge and by the stages' names, the consumers it reports, and acyclicity kept both ways |
| AsymmetricPipelines.CoverageKeepsOrderIff | gigaevo/adversarial/asymmetric_pipeline.py:471-495 | the coverage splice adds exactly the ordering tracker-before-check, and a cycle exactly when the check already led to the tracker |
| AsymmetricPipelines.CoverageProducers | gigaevo/adversarial/asymmetric_pipeline.py:471-495 | which producers the check keeps, loses and gains |
| AsymmetricPipelines.AddTrackerCoverageStages | gigaevo/adversarial/asymmetric_pipeline.py:431-495 | the rewiring calls on the builder: the stages, edges and dependency added and removed, by name; acyclic afterwards exactly when it was and the check did not lead to the tracker, and which producers the candidate input has then |
| Plots.ComputePerIterationStats | gigaevo/cli/plot.py:73-146 | the curves are faithful to the histories, frontier points being the convertible entries, or the call fails exactly when a generation got only unconvertible values |
| Plots.CurvesAreDetermined | gigaevo/cli/plot.py:73-146 | faithfulness leaves only one result |
| Plots.BestIsMonotone | gigaevo/cli/plot.py:108-122 | the best curve never turns back |
| Plots.Sweep | gigaevo/cli/plot.py:108-122 | the two-pointer sweep gives each generation the best of all points up to it, or nothing when there are none |
| Plots.GenValuesAre | gigaevo/cli/plot.py:82-91 | which generations get a value list, and which of those lists are empty |
| Plots.PointsAre | gigaevo/cli/plot.py:93-106 | the frontier points are exactly the entries whose step and value both convert |
| Plots.MeanIsTheLastValue | gigaevo/cli/plot.py:129-131 | the mean shown for a generation is its last convertible value |

## Left out

- Redis networking, connection retries, key expiry, corrupt JSON, streams, metrics collection and the instance lock: transport and environment.
- `batch_move_status_sets`, `transition_status` and `remove_ids_from_status_set`: they separate sets from blobs by design, so the status index does not apply to them.
- Pipelines without a transaction are one step, and the store methods of the class are one uninterrupted call each; the retry loops and the interleavings of the calls are in Concurrency, where a batch stands for one of its chunks.
- The order in which recovery visits ids is arbitrary, and so is the order of a scan; a fetched list is compared as a map from ids. The aliasing of the cached list is not modelled.
- Exclusions outside the deferrable fields, and the unused `new_state` argument of `atomic_state_transition`.
- DriftProtocol.DriftIsBounded: assumes no timeout and an exact reading of a population's own progress, because either lets a check pass at any lead.
- StateManagers.EveryChangeIsAValidEdge: assumes that every store call that fails is harmless in the sense of FailureIsHarmlessIff, the exact condition; so do NoWriteIff, EvictedIsStoredTerminal and CommitIsTheFastPath.
- StateManagers.MutualExclusion: assumes that no eviction happens under a waiter; without that it is false, which ExclusionNeedsQuietEvictions shows. The fairness of the lock queue, `mark_stage_running` and `update_program` are not modelled.
- DGTrackers.IndicesAgree: assumes D ids without a bar and batches without repeated pairs; ScoresStayEqualIff and ParseIff are the exact conditions. `record_metrics`, `metrics_by_d`, `get_deltas_against` and `get_top_d_for_g` are simple reads and writes of the same tables.
- InjectionRuns: one hook runs at a time, and the rewriting of the entrypoint name is a parameter.
- OpponentProviders: softmax and uniform sampling, non-finite fitness, and the per-source error handling; the rows of all sources are one list.
- Plots: the standard deviation, NaN values and the drawing.
- PipelineBuilders: limits, `replace_stage` and the building of a blueprint; the fixed wiring of each concrete pipeline.
- LLM prompts, mutation and insight stages, the command line, launchers and subprocess execution.
