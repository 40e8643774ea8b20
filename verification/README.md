# LoopWeave, verified

A Dafny model of the parts of LoopWeave whose correctness depends on interleaving,
crashes or arithmetic, with proofs of what they promise.

LoopWeave's server and its tenant simulator are single-threaded asyncio programs. Each
component is modelled twice: as a transition system whose events are the stretches of
code between two suspensions, and as a class (or methods) whose fields those stretches
update in place. Every method ensures that the class moves exactly as the transition
system says, so a theorem about every run of the transition system holds of the class
under every schedule. What the steps do is itself told from outside: who passes a wait,
which outcome or version arrives, what a refusal or a loss value depends on is stated
over the events of a run, or in numbers, apart from the functions that compute it.

* **Tenant actor** (`Tenant*.dfy`): samplers, the shared replay buffer, the single-flight
  trainer with its two points of failure, weight sync, staleness back-pressure, quota and
  drain, for the serial and the async loop, single-turn and episodes.
* **Admission pipeline** (`Pipeline*.dfy`): adapter merging (L1), run coalescing with a
  bounded hold (L2) and flip-horizon admission (L3) for any number of concurrent
  requests, over a real-valued clock that may overshoot every sleep.
* **Sequence executor and sampling history** (`Executor.dfy`, `History.dfy`,
  `Ordering.dfy`): the on-demand worker over a priority queue, and the ordered list it
  feeds, with the index rebuilt after a restart.
* **Futures, checkpoints and crash recovery** (`Future*.dfy`, `Run*.dfy`,
  `TrainingRun.dfy`, `Recovery*.dfy`, `Server.dfy`): future ids, runners and stored
  copies; the FIFO run lock with its sequence guard; stamped checkpoints; the history that
  decides what a checkpoint contains and which ids are refused (`RunHistory.dfy`,
  `SaveOrder.dfy`, `GuardHistory.dfy`); and, with `ServerEffects.dfy`, a whole
  server that may crash between any two stretches, those of a recovery included: each
  future failed, each load, the saving of a failed load and the end of each run's turn is
  a step of its own.
* **Micro-batched forward** (`LossFn.dfy`, `LossMeaning.dfy`, `MicroBatch*.dfy`, `Padding.dfy`): the split,
  padded and reduced computation against the datum-by-datum one.

`Wrappers.dfy`, `Seqs.dfy` and `Reals.dfy` hold shared helpers. `dafny verify dfyconfig.toml` checks
everything.

Assumptions, each visible as a parameter or hypothesis: persistence is on, saves are
atomic and nothing expires; the clock never runs backwards; only owners retrieve futures
in the runs considered; ids of calls pending together in an executor are distinct; the
model ignores padding appended to a row (`IgnoresPadding`, which the attention mask and
causal attention are there to provide); the table of metric reductions, which comes from
the tinker library and is not part of this model, maps `sum` to addition and has no
numbered entries.

Where the code and its own words differ, the code is modelled and the difference is
proved, with its exact condition:

* The staleness limit is documented as a cap but is not one
  (`StalenessLimitCanBeExceeded`). It is kept for an item exactly when a number known on
  the item's arrival, less the steps that fail before its batch starts, is within it
  (`StalenessFixedOnArrival`).
* The comment that sync mode guarantees staleness 0 holds for every run of a
  configuration if and only if an episode has at most one item or the tenant makes at
  most one step (`SyncModeFreshExactly`).
* The comment that the staleness wait cannot deadlock is true exactly while the buffer
  is short of a batch (`HangsExactlyWhenBufferFull`). While syncs are faithful, pauses
  occur during syncs only (`PausesAreBounded`).
* An operation that recovery leaves `ready` may be missing from the restored weights
  (`ReadyButLost`). It is in them exactly when its effect came before the capture, no
  load intervening (`ReadyIsRestoredExactly`, and `CheckpointContainsExactly` with loads
  and restarts); a client can tell from whether it was applied, or had not reached the
  lock, when the save did (`SaveContainsWhatCameFirst`).
* Recovery is meant to fail all futures of a run for which nothing was loaded. When a load
  fails, its flag is saved first (`training_controller.py:783-786`), and a run with the flag
  is skipped (`state.py:477`), so a crash before the futures are failed leaves them as
  they are (`CorruptedButNotFailed`). A corrupted run's futures are all failed exactly
  when this recovery found it uncorrupted, or they were failed before
  (`CorruptedFailedExactly`, `InterruptedMarkingDecides`).

## Model

| member | source | states |
|---|---|---|
| `TenantTheorems.SingleFlightAndConservation` | paper_release/simulator/simulator/tenant.py:635-801 | In every reachable state of either loop the training flag is up exactly while one training task lives, steps never pass the target, arrivals are the batches in order followed by the buffer, and batches taken are steps plus failures plus drops plus the one undecided |
| `TenantTheorems.FifoClosedForm` | paper_release/simulator/simulator/tenant.py:626-657 | Arrival i is entry i mod K of batch i div K; its recorded staleness is that batch index, less the failures before it, minus the stored version; without failures batch b is step b + 1 |
| `TenantTheorems.QuotaCompleteness` | paper_release/simulator/simulator/tenant.py:373-420 | When a loop has ended, steps plus failed steps reach the target; with no failure the target is met exactly, step k used batch k, and every such batch was full |
| `TenantTheorems.OverCollectionBound` | paper_release/simulator/simulator/tenant.py:373-398 | Async sampling collects at most N*K + K + C + f*K items for single-turn tasks, and the episode form of the same bound, under every interleaving |
| `TenantTheorems.PausedSamplerIsReleased` | paper_release/simulator/simulator/tenant.py:108-140 | With faithful syncs a positive version gap is exactly 1 and one training task is syncing; finishing that sync lets every waiter through at that moment |
| `TenantTheorems.PausesAreBounded` | paper_release/simulator/simulator/tenant.py:128-140 | Under every schedule with faithful syncs, all pauses fall into syncs: at most one sync per step still to come, plus the one in flight, and none between a sync and the next step |
| `TenantTheorems.StalenessFixedOnArrival` | paper_release/simulator/simulator/tenant.py:652-657 | In every run the staleness later recorded for an item is a number known when it arrives less the steps that failed since; so the limit is kept whenever that number is within it, and exactly when the failures since make up for the excess |
| `TenantTheorems.NewRecord` | paper_release/simulator/simulator/tenant.py:652-657 | A staleness record that is not there yet will count at least the failures so far, and none comes once the target is met |
| `TenantTheorems.DeliveredVersions` | paper_release/simulator/simulator/tenant.py:601-609 | Each delivered sample becomes an arrival that stores the weight version of that moment |
| `TenantTheorems.GrowsStep` | paper_release/simulator/simulator/tenant.py:626-657 | No step of any coroutine retracts an arrival, a batch, a completed step or a failure |
| `TenantWaits.MainReleasedExactly` | paper_release/simulator/simulator/tenant.py:128-140 | In every reachable state the main loop ends its staleness wait if and only if the gap is within the limit (above 0 for limit 0, at the limit otherwise, being beyond it), or it has slept, no training task is alive and the buffer is short of a batch; otherwise one pause is counted |
| `TenantWaits.RequestReleasedExactly` | paper_release/simulator/simulator/tenant.py:128-140 | The same for a dispatched request, and nobody else moves |
| `TenantWaits.NobodyPassesWhileTraining` | paper_release/simulator/simulator/tenant.py:130-139 | While a training task is alive and the gap is beyond the limit, no step of anybody lets the main loop or a request out of its wait |
| `TenantWaits.EveryCallWaits` | paper_release/simulator/simulator/tenant.py:249-252 | Whoever samples has passed the wait for it: every request, and every turn of an episode |
| `TenantWaits.HeadLooksOnce` | paper_release/simulator/simulator/tenant.py:373-382 | The async loop stops dispatching exactly when steps and buffer cover the target, and else dispatches at once exactly within the budget |
| `TenantWaits.DispatchedOnlyWhenNeeded` | paper_release/simulator/simulator/tenant.py:383-398 | A request task is created only by the async loop, with a permit, for a target not yet met |
| `TenantWaits.FullBufferTrains` | paper_release/simulator/simulator/tenant.py:626-633 | An arrival leaves a whole batch in the buffer only while a training task is alive |
| `TenantWaits.DrainTrainsTheRest` | paper_release/simulator/simulator/tenant.py:409-416 | Draining starts a batch exactly when nothing trains, items are left and the target is not met |
| `TenantWaits.EndsAfterTarget` | paper_release/simulator/simulator/tenant.py:373-420 | With the target met and no task left the main loop ends within five stretches |
| `TenantWaits.VersionIsLastSynced` | paper_release/simulator/simulator/tenant.py:778-781 | Over every run the sampler's version is what the last sync that returned reported |
| `TenantWaits.OptionalStagesAreCounted` | paper_release/simulator/simulator/tenant.py:665-796 | Each batch that trains gets one logprob pass exactly when these are collected, and evaluations follow exactly the syncs at multiples of the interval |
| `TenantWaits.YieldsAtMost` | paper_release/simulator/simulator/tenant.py:513-525 | An episode yields at most one item per turn, of which there are 8 by default |
| `TenantBounds.QuotaStep` | paper_release/simulator/simulator/tenant.py:373-420 | Every step keeps the quota invariant: once dispatch stops, steps, failures and the batch in flight, times K, plus the buffer cover the target |
| `TenantBounds.BoundedStep` | paper_release/simulator/simulator/tenant.py:376-397 | Every step keeps arrivals plus what live and decided requests can still deliver within the collection bound |
| `TenantBounds.VersionsStep` | paper_release/simulator/simulator/tenant.py:780 | With faithful syncs the version equals the step count, less one exactly while a sync is in flight |
| `TenantBounds.InvReachable` | paper_release/simulator/simulator/tenant.py:183-216 | The whole tenant invariant holds in every reachable state |
| `TenantFreshness.SyncModeFreshExactly` | paper_release/simulator/simulator/tenant.py:203-206 | Serial sync mode with faithful syncs records staleness 0 only, in every run, if and only if an episode has at most one item or the tenant makes at most one step |
| `TenantFreshness.SyncModeIsFresh` | paper_release/simulator/simulator/tenant.py:203-206 | With at most one item a request or episode it records staleness 0 only, failed steps included |
| `TenantFreshness.OneStepIsFresh` | paper_release/simulator/simulator/tenant.py:652-657 | A tenant of at most one step records staleness 0 only, in either loop |
| `TenantFreshness.EpisodesGoStale` | paper_release/simulator/simulator/tenant.py:203-206 | Every other configuration has a run without failures that records a staleness other than 0: an episode overfills a batch, and the item left behind trains a step later |
| `TenantInvariants.CoreStep` | paper_release/simulator/simulator/tenant.py:626-633 | Every step keeps single flight, conservation of items, batch shape, step accounting and the coroutine counts |
| `TenantLedger.LedgerStep` | paper_release/simulator/simulator/tenant.py:652-657 | Every step keeps the step log increasing and each staleness record equal to completed steps minus the stored versions of its own batch |
| `TenantLedger.ItemPosition` | paper_release/simulator/simulator/tenant.py:631-632 | Items lie in batches by position, the last batch being the only one that may be short |
| `TenantLimits.HangsExactlyWhenBufferFull` | paper_release/simulator/simulator/tenant.py:130-139 | With only paused waiters left and no training task, the tenant hangs in every continuation if and only if the sampler is over budget and the buffer holds a batch |
| `TenantLimits.FailedSyncHangs` | paper_release/simulator/simulator/tenant.py:778-801 | That hang is reachable: a sync fails while the next item is buffered |
| `TenantLimits.StalenessLimitCanBeExceeded` | paper_release/simulator/simulator/tenant.py:115-120 | The docstring's cap is not kept: a run with limit 1 records staleness 2 |
| `TenantActor.Tenant.constructor` | paper_release/simulator/simulator/tenant.py:37-74 | A new tenant is idle with an empty buffer and satisfies the invariant |
| `TenantActor.Tenant.WaitForStalenessBudget` | paper_release/simulator/simulator/tenant.py:112-140 | One pass of the wait lets the caller through exactly when the specification does, and otherwise counts one pause |
| `TenantActor.Tenant.SpawnTraining` | paper_release/simulator/simulator/tenant.py:198-201 | Claims the flag and moves the oldest batch, at most K items, from the buffer to a new task |
| `TenantActor.Tenant.AddItem` | paper_release/simulator/simulator/tenant.py:626-633 | Appends, and starts training when the buffer is full and no training runs |
| `TenantActor.Tenant.LoopHead` | paper_release/simulator/simulator/tenant.py:373-382 | Stops dispatching when the quota is covered, else waits for the budget |
| `TenantActor.Tenant.DispatchRequest` | paper_release/simulator/simulator/tenant.py:383-398 | Takes a permit and dispatches, or gives it back and stops when the target was met meanwhile |
| `TenantActor.Tenant.DrainBuffer` | paper_release/simulator/simulator/tenant.py:409-416 | Trains on what is left, in a short batch if need be |
| `TenantActor.Tenant.ResumeMain` | paper_release/simulator/simulator/tenant.py:191-216 | Each stretch of either main loop is the step of the transition system |
| `TenantActor.Tenant.CollectOwn` | paper_release/simulator/simulator/tenant.py:601-609 | Appends a whole episode in order, then looks at the buffer once |
| `TenantActor.Tenant.ResumeRequest` | paper_release/simulator/simulator/tenant.py:249-252 | A dispatched request passes the staleness wait or pauses |
| `TenantActor.Tenant.FinishRequest` | paper_release/simulator/simulator/tenant.py:388-392 | A request's items enter the buffer one by one, in order, and its permit is released |
| `TenantActor.Tenant.BeginTraining` | paper_release/simulator/simulator/tenant.py:635-657 | Drops the batch when the target is met, else records its staleness |
| `TenantActor.Tenant.FinishStep` | paper_release/simulator/simulator/tenant.py:711-715 | Only a success short of the target moves the step counter |
| `TenantActor.Tenant.FinishSync` | paper_release/simulator/simulator/tenant.py:778-801 | A sync that raises keeps the old version; either way the flag is released in the end |
| `TenantActor.Tenant.RunTraining` | paper_release/simulator/simulator/tenant.py:635-801 | Each stretch of a training task is the step of the transition system |
| `TenantActor.Tenant.Dispatch` | paper_release/simulator/simulator/tenant.py:183-216 | Any ready stretch keeps the tenant invariant |
| `TenantActor.Tenant.RunSchedule` | paper_release/simulator/simulator/tenant.py:218-420 | Any schedule of ready stretches leads where the transition system says and keeps the invariant |
| `PipelineTheorems.RunCountingExact` | src/loopweave/backends/sampling_pipeline.py:133-179 | Dispatch runs equal the maximal same-key blocks of the dispatch log, adapter runs those of the arrivals, and the in-flight map holds exact positive counts |
| `PipelineTheorems.LiveRunLeftOnlyAfterDeadline` | src/loopweave/backends/sampling_pipeline.py:146-161 | With coalescing on, a run with live requests is left only by a request whose hold bound is up |
| `PipelineTheorems.HorizonThenHoldBound` | src/loopweave/backends/sampling_pipeline.py:181-199 | Under a fixed horizon and exact wake-ups a request that fits starts so that start plus estimate is at most flip plus the L2 bound; one that does not fit is admitted no earlier than the flip |
| `PipelineTheorems.NeverFitsAgain` | src/loopweave/backends/sampling_pipeline.py:190-197 | A request held before an unchanged flip fits again only when the flip has passed |
| `PipelineTheorems.HoldAccounting` | src/loopweave/backends/sampling_pipeline.py:155-158 | Per request, L2 holds sum to at most the bound in at most ceil(bound / 0.01) sleeps and L3 holds to at most flip minus arrival, likewise, for any clock |
| `PipelineTheorems.AliasedAdapterKept` | src/loopweave/backends/sampling_pipeline.py:89-125 | A session aliased to a run is served with its adapter exactly when the run last reported a version other than 0 |
| `PipelineTheorems.UnreportedAdapterServedFromBase` | src/loopweave/backends/sampling_pipeline.py:232-234 | Without version reports the seeded 0 makes L1 drop the adapter |
| `PipelineTheorems.InvStep` | src/loopweave/backends/sampling_pipeline.py:207-230 | Every stretch of every concurrent request keeps the counting, in-flight and timing invariants |
| `PipelineSteps.WakeDecides` | src/loopweave/backends/sampling_pipeline.py:133-199 | A request that wakes sleeps on at L3 exactly before an unreached flip it cannot meet, and at L2 exactly with coalescing on, a live request of another adapter's run and its deadline ahead; otherwise it is dispatched in that stretch. How long it sleeps is stated, and nobody else moves |
| `PipelineSteps.ArriveDecides` | src/loopweave/backends/sampling_pipeline.py:207-230 | A new request takes the same looks; its estimate times the rate is the number of tokens asked for, 64 a sample by default |
| `PipelineSteps.SleepsBehindOthersOnly` | src/loopweave/backends/sampling_pipeline.py:147-158 | Over every step, whoever sleeps at L2 does so behind a live request of another key's run |
| `PipelineSteps.ServedByTheNews` | src/loopweave/backends/sampling_pipeline.py:76-125 | Over every run a session is served from the base exactly when the last news says version 0, the bound run's counting first; L3 goes by the last horizon and clock reading |
| `PipelineStats.StatsAreTotals` | src/loopweave/backends/sampling_pipeline.py:61-71 | After any run hold counts, held seconds and routed requests are the sums over all requests ever seen, live, finished or cancelled, of their own sleeps, seconds and passages |
| `PipelineStats.ArrivalCounted` | src/loopweave/backends/sampling_pipeline.py:109-125 | An arrival moves at most one of L1's counters, by what is known of its adapter, which also decides the run it joins |
| `SamplingPipeline.SamplingPipelineBackend.KnownVersionOf` | src/loopweave/backends/sampling_pipeline.py:89-100 | The alias's run is asked first, then the key itself |
| `SamplingPipeline.SamplingPipelineBackend.EffectiveLoraId` | src/loopweave/backends/sampling_pipeline.py:109-125 | L1: unknown adapters are kept, version 0 is merged into the base, and one counter moves |
| `SamplingPipeline.SamplingPipelineBackend.LeaveAdapterRun` | src/loopweave/backends/sampling_pipeline.py:166-171 | The count goes down by one and a zero entry is removed |
| `SamplingPipeline.SamplingPipelineBackend.CoalesceRun` | src/loopweave/backends/sampling_pipeline.py:133-161 | L2: nap behind the live run, or take over and go downstream |
| `SamplingPipeline.SamplingPipelineBackend.AdmitIntoHorizon` | src/loopweave/backends/sampling_pipeline.py:181-199 | L3: nap before the flip, or pass on to L2 in the same stretch |
| `SamplingPipeline.SamplingPipelineBackend.Sample` | src/loopweave/backends/sampling_pipeline.py:207-221 | A request up to its first suspension |
| `SamplingPipeline.SamplingPipelineBackend.WakeUp` | src/loopweave/backends/sampling_pipeline.py:146-161 | A sleeping request looks again at whichever level it sleeps |
| `SamplingPipeline.SamplingPipelineBackend.InnerDone` | src/loopweave/backends/sampling_pipeline.py:173-179 | On success or exception the request leaves its run |
| `SamplingPipeline.SamplingPipelineBackend.AddAdapterKey` | src/loopweave/backends/sampling_pipeline.py:232-234 | A new adapter is seeded with version 0 only when none is known |
| `SamplingPipeline.SamplingPipelineBackend.RunSchedule` | src/loopweave/backends/sampling_pipeline.py:207-230 | Any schedule keeps the pipeline invariant and leads where the transition system says |
| `SamplingPipeline.SamplingPipelineBackend.constructor` | src/loopweave/backends/sampling_pipeline.py:36-71 | A new wrapper has no run, no live request and zero counters |
| `SamplingPipeline.SamplingPipelineBackend.TrackAdapterRun` | src/loopweave/backends/sampling_pipeline.py:127-131 | A new adapter run is counted exactly when the key differs from the last one |
| `SamplingPipeline.SamplingPipelineBackend.NotifyAdapterAlias` | src/loopweave/backends/sampling_pipeline.py:79-87 | Binds a session to a run when both names are given |
| `Executor.NoLostWakeup` | src/loopweave/sequence_executor.py:40-67 | Pending work always has exactly one live worker; no call starts or finishes twice; every call is pending or started, timed out or not, and finished once the worker stops |
| `Executor.SmallerIdCompletesFirst` | src/loopweave/sequence_executor.py:55-64 | Of two calls pending together the smaller id is finished before the other starts |
| `Executor.OneOutcomeEach` | src/loopweave/sequence_executor.py:61-67 | A finished call has an outcome, and an outcome once set is never replaced, a timeout included |
| `Executor.OutcomeIsVerdict` | src/loopweave/sequence_executor.py:47-67 | Over every run a caller timed out exactly when its timeout came before its call was finished; otherwise it gets a return exactly when the resumption that finished the call reported success, and a raise when it reported failure |
| `Executor.BacklogRunsAscending` | src/loopweave/sequence_executor.py:53-64 | With no further submissions what runs next is the pending calls in ascending id order |
| `Executor.BacklogDrains` | src/loopweave/sequence_executor.py:53-58 | With no further submissions the worker is resumed once per pending call and once to stop, and then nothing is pending |
| `Executor.SequenceExecutor.SubmitCall` | src/loopweave/sequence_executor.py:40-46 | Pushes the call and starts a worker exactly when none is running |
| `Executor.SequenceExecutor.GiveUp` | src/loopweave/sequence_executor.py:47-50 | A timeout completes the future and leaves the call queued |
| `Executor.SequenceExecutor.ProcessTasks` | src/loopweave/sequence_executor.py:53-67 | Completes a future that is not done, then pops the least id or stops |
| `Ordering.SelectLeast` | src/loopweave/sequence_executor.py:60 | Extract-minimum returns a least element |
| `History.ListingSorted` | src/loopweave/sampling_controller.py:291-292 | The saved history is strictly sorted and contains exactly the indexed entries |
| `History.IndexHoldsLatest` | src/loopweave/sampling_controller.py:291 | Under each id the index holds what was recorded last |
| `History.IndexedWasRecorded` | src/loopweave/sampling_controller.py:286-291 | Every indexed entry is the latest recorded under its id |
| `History.LastIdIsMax` | src/loopweave/sampling_controller.py:293 | The last id is the maximum of what was recorded |
| `History.RebuildRoundTrip` | src/loopweave/sampling_controller.py:104-110 | Rebuilding the index from the saved history gives back the same index |
| `History.RestartKeepsSession` | src/loopweave/sampling_controller.py:104-110 | A restart restores index and last id of the session as saved |
| `History.OrderIrrelevant` | src/loopweave/sampling_controller.py:283-293 | With distinct ids the index does not depend on the order of recording |
| `History.ListEntries` | src/loopweave/sampling_controller.py:292 | Lists the index by ascending id |
| `History.SamplingSession.RecordSequence` | src/loopweave/sampling_controller.py:283-296 | One recording keeps list, index and last id in agreement with everything recorded |
| `History.SamplingSession.RebuildHistoryIndex` | src/loopweave/sampling_controller.py:104-110 | Files the list entry by entry and raises the last id; a saved session comes back as it was |
| `FutureTheorems.FutureIdsNeverReused` | src/loopweave/futures.py:108-143 | Ids are 1, 2, 3, ... across enqueues, ready futures and restarts; live ids are distinct, the next exceeds them all, and the current id is the largest ever issued |
| `FutureTheorems.WakeAfterDurable` | src/loopweave/futures.py:346-397 | A signalled record's stored copy is the completed one, so a crash gives it back unchanged |
| `FutureTheorems.CompleteOnce` | src/loopweave/futures.py:346-390 | No future leaves pending twice, and a completed one has no operation still executing |
| `FutureTheorems.OutcomeIsFinal` | src/loopweave/futures.py:346-397 | Status, payload and error of a completed record never change before a restart |
| `FutureTheorems.AnswerDurableExactlyWhenSaved` | src/loopweave/futures.py:442-453 | What a caller can read of a completed record survives a crash if and only if the runner is not between status and save |
| `FutureTheorems.LateCallerSeesUnsavedResult` | src/loopweave/futures.py:441-453 | A late caller can read a payload that a crash takes back |
| `FutureTheorems.InvStep` | src/loopweave/futures.py:217-397 | Every stretch keeps ids, stored copies and runners consistent, with a restart allowed at any point |
| `FutureTheorems.InvRestart` | src/loopweave/futures.py:108-123 | The id counter recomputed from the stored records is the one before the crash |
| `FutureAnswers.AnswerIsReport` | src/loopweave/futures.py:346-453 | Over every run with restarts: a future is pending exactly when nothing was reported since the last crash that lost a report; otherwise its owner gets Raise(e) exactly when the operation reported failure e, and payload v exactly when it reported v |
| `FutureAnswers.RecordIsAsRequested` | src/loopweave/futures.py:217-247 | A future exists exactly when it was requested, for the user, run and operation type it was requested for, under the number of its request |
| `FutureStoreClass.FutureStore.RestoreFromRedis` | src/loopweave/futures.py:108-123 | Loads every stored record, in any order, and ends with the counter one past the largest id |
| `FutureStoreClass.FutureStore.GetCurrentFutureId` | src/loopweave/futures.py:141-143 | The latest allocated id, or 0 |
| `FutureStoreClass.FutureStore.EnqueueOperation` | src/loopweave/futures.py:237-247 | Allocates the next id and stores a pending record in one stretch |
| `FutureStoreClass.FutureStore.CreateReadyFuture` | src/loopweave/futures.py:332-342 | Allocates the next id and stores a completed, signalled record |
| `FutureStoreClass.FutureStore.SetOutcome` | src/loopweave/futures.py:350-356 | Sets payload or error and status in memory only |
| `FutureStoreClass.FutureStore.PersistOutcome` | src/loopweave/futures.py:361-362 | Saves the record as it is now |
| `FutureStoreClass.FutureStore.SetEvent` | src/loopweave/futures.py:363-366 | Wakes waiters last |
| `FutureStoreClass.FutureStore.Retrieve` | src/loopweave/futures.py:408-453 | Not found, refused (which marks the record failed in memory), try again, the error or the payload; nothing else changes |
| `FutureStoreClass.FutureStore.MarkFuturesFailedAfterCheckpoint` | src/loopweave/futures.py:164-181 | Fails, signals and saves exactly the run's records above the checkpoint's id, all of them without one; the count is exact |
| `FutureStoreClass.FutureStore.MarkAllPendingFailed` | src/loopweave/futures.py:183-196 | Fails exactly the pending records; the count is exact |
| `FutureStoreClass.FutureStore.MarkPendingSampleFuturesFailed` | src/loopweave/futures.py:198-211 | Fails exactly the pending samples; the count is exact |
| `FutureStoreClass.FutureStore.SaveFuture` | src/loopweave/futures.py:125-133 | The stored copy becomes the record without its event; a missing record is not saved |
| `RunSpec.SequenceGuard` | src/loopweave/training_controller.py:286-318 | Whatever interleaves and fails, the expected id never goes back, exceeds every succeeded id, and succeeded ids strictly increase |
| `RunSpec.RejectionChangesNothing` | src/loopweave/training_controller.py:293-297 | An id is refused exactly when it is below the expected one, succeeded ids always are, and only queue and clock move |
| `GuardHistory.RefusedExactly` | src/loopweave/training_controller.py:286-318 | Over every run an operation that gets the lock is refused if and only if its id is below 1, or an operation with that id returned, or one with a greater id entered; without an id never |
| `GuardHistory.RaiseMayBeRetried` | src/loopweave/training_controller.py:311-314 | After a raise, the retry under the same id enters as long as nothing with an id entered in between |
| `RunInvariants.RunInvStep` | src/loopweave/training_controller.py:540-618 | Every locked stretch keeps checkpoints free of operations numbered above their stamp, and stamps in creation order |
| `RunInvariants.TruncationCommutes` | src/loopweave/training_controller.py:286-318 | What a queued save will see does not depend on what is queued behind it |
| `RunInvariants.RunInvRequest` | src/loopweave/state.py:718-729 | Joining the FIFO queue keeps the invariant when a save's stamp covers every id issued so far |
| `RunInvariants.RunInvRestore` | src/loopweave/training_controller.py:764-788 | Loading any checkpoint of an idle run keeps the invariant |
| `RunInvariants.RunInvReload` | src/loopweave/training_controller.py:154-194 | A run as a new process reads it keeps the invariant |
| `RunHistory.WeightsDecided` | src/loopweave/training_controller.py:540-618 | Whatever loads and restarts occur, an operation is in the weights exactly when its effect, or a load or restart that brings it, is followed by no load or restart |
| `RunHistory.AppliedDecides` | src/loopweave/training_controller.py:540-618 | An operation that took effect once, with no load or restart in between, is in the weights at a later or earlier point exactly when its effect comes before that point |
| `RunHistory.InWeightsWasApplied` | src/loopweave/training_controller.py:540-618 | Weights, checkpoints and loads contain only operations whose effect happened before |
| `RunHistory.ReplayedStep` | src/loopweave/training_controller.py:540-618 | Every locked stretch keeps weights, checkpoints and queued loads equal to what the history of effects and loads builds up |
| `SaveOrder.QueueDecides` | src/loopweave/training_controller.py:286-318 | Told from the moment a save joins the lock with no load ahead: what is in the weights by then is in its checkpoint, and an update neither applied nor queued by then is not |
| `RunEffects.LoadBringsCheckpoint` | src/loopweave/training_controller.py:662-671 | A load, when its turn in the queue has come, replaces the weights by those of the checkpoint it was queued with |
| `RunEffects.SaveIsDurable` | src/loopweave/training_controller.py:540-618 | A save that returns has stored, under its key, the weights of the moment it passed the guard with its stamp and sequence id, unless the key was deleted meanwhile; a new process finds it |
| `RunEffects.DeletedStaysAway` | src/loopweave/training_controller.py:675-690 | A deleted checkpoint stays away, also from a new process, until something is saved under its key |
| `RunEffects.SavedIdIsCurrent` | src/loopweave/training_controller.py:315-317 | A crash right after a return, a saved checkpoint, a deletion or an update's request gives the expected id back |
| `TrainingController.TrainingRun.JoinQueue` | src/loopweave/training_controller.py:292 | Waiters take the run lock in arrival order |
| `TrainingController.TrainingRun.EnterGuard` | src/loopweave/training_controller.py:293-309 | Refuses a stale id, fast-forwards past a gap, and otherwise enters |
| `TrainingController.TrainingRun.ApplyEffect` | src/loopweave/training_controller.py:311 | The backend applies the operation or loads the checkpoint that holds the lock |
| `TrainingController.TrainingRun.CaptureState` | src/loopweave/training_controller.py:553-573 | The checkpoint is the weights of this moment under the stamp read before queueing |
| `TrainingController.TrainingRun.PublishCheckpoint` | src/loopweave/training_controller.py:592 | Enters the checkpoint in the run's map |
| `TrainingController.TrainingRun.SaveRunWithCheckpoint` | src/loopweave/training_controller.py:596-603 | Saves run and checkpoint together; one deleted meanwhile is not saved |
| `TrainingController.TrainingRun.LeaveGuard` | src/loopweave/training_controller.py:313-318 | Only a return counts towards the sequence, and is saved after the operation |
| `TrainingController.TrainingRun.GetLatestCheckpoint` | src/loopweave/training_controller.py:753-762 | A checkpoint of greatest creation time over both kinds, None exactly when there is none |
| `TrainingController.TrainingRun.DeleteCheckpoint` | src/loopweave/training_controller.py:675-690 | Removes the checkpoint from the map and the store, and saves the run with its current expected id |
| `TrainingController.TrainingRun.RestoreFromCheckpoint` | src/loopweave/training_controller.py:764-786 | Loads a latest checkpoint, or notes in memory that the load failed; without a checkpoint nothing changes |
| `TrainingController.TrainingRun.SaveCorruption` | src/loopweave/training_controller.py:784-785 | Saves the run record with its flag and expected id |
| `TrainingController.TrainingRun.Reload` | src/loopweave/training_controller.py:154-194 | A new process has the saved sequence id and checkpoints, an empty queue and no weights |
| `RecoveryTheorems.EffectsAfterStampFollowCapture` | src/loopweave/state.py:718-729 | In every run with crashes anywhere, an operation numbered above a checkpoint's stamp took effect only after the capture and is in no checkpoint with that stamp |
| `RecoveryTheorems.RecoverySafeToRetry` | src/loopweave/state.py:464-495 | When a recovery completes, after any number of interrupted ones, an uncorrupted run with a checkpoint holds exactly a latest one's weights, and each of its futures above the stamp is failed, signalled, saved and absent from them |
| `RecoveryTheorems.RecoveryFrame` | src/loopweave/state.py:473-495 | When a recovery completes, a record is failed exactly when its run was dealt with and it is numbered above what was loaded, or it was a pending sample; every other record and copy is as this process found it |
| `RecoveryTheorems.InterruptedRecoveryFrame` | src/loopweave/state.py:464-495 | The same since the server went down, over all attempts: a record differs only if some attempt may fail it, and is then failed, signalled and saved with its payload kept |
| `RecoveryTheorems.RunsWithoutCheckpoint` | src/loopweave/state.py:481-486 | A run dealt with for which nothing was loaded has no weights and all its futures failed; if it has a checkpoint, it is corrupted and saved as such |
| `RecoveryTheorems.CorruptedRunsSkipped` | src/loopweave/state.py:476-478 | A run found corrupted is skipped and its futures stay as found, apart from pending samples |
| `RecoveryTheorems.CorruptedFailedExactly` | src/loopweave/state.py:476-486 | When a recovery completes, all futures of a corrupted run are failed if and only if this recovery found it uncorrupted, or all those that are not pending samples were found failed |
| `RecoveryTheorems.InterruptedMarkingDecides` | src/loopweave/training_controller.py:781-786 | After a crash while a corrupted run's futures are being failed, the recovery that completes leaves them all failed if and only if those still to mark were failed already |
| `RecoveryTheorems.CheckpointContainsExactly` | src/loopweave/training_controller.py:553-573 | Through loads, crashes and recoveries, a stored checkpoint contains an operation exactly when its effect, or a load that brings it, precedes the capture with no load or restart between |
| `RecoveryTheorems.ReadyIsRestoredExactly` | src/loopweave/state.py:479-495 | Absent loads between its effect and the capture, an update of a restored run is in the restored weights if and only if it took effect before the capture; up to the stamp its future keeps the status found either way |
| `RecoveryTheorems.SaveContainsWhatCameFirst` | src/loopweave/state.py:718-729 | When a save reaches the lock with no load queued, updates already in the weights will be in its checkpoint and those whose coroutine has not reached the lock will not |
| `RecoveryTheorems.UpdatesApplyOnce` | src/loopweave/training_controller.py:286-318 | No update takes effect twice, crashes included |
| `RecoveryTheorems.LateJobsAreNotAtTheLock` | src/loopweave/futures.py:217-270 | An operation whose coroutine has not reached the lock is in no run's history or queue |
| `RecoveryTheorems.AcknowledgedNeverRepeats` | src/loopweave/training_controller.py:286-318 | Through crashes, ids of operations that returned strictly increase and a new process refuses every one of them |
| `RecoveryTheorems.LatestCheckpointLosesLeast` | src/loopweave/training_controller.py:753-762 | The latest checkpoint has the largest stamp among those created at another time |
| `RecoveryTheorems.InvStep` | src/loopweave/state.py:464-495 | Every step of the whole server, and every step of a recovery, a crash being possible before each of them, keeps the joint invariant of store, runs and recovery |
| `RecoveryInvariants.EntryBounded` | src/loopweave/state.py:718-729 | A save is stamped with every id issued when it joins the queue, and nothing queued is numbered above |
| `RecoveryProgress.StoreStep` | src/loopweave/futures.py:164-211 | At every point of a recovery the store is what this process loaded with the records marked so far failed |
| `RecoveryProgress.MarksStep` | src/loopweave/state.py:473-495 | At every point the marked records are exactly those whose turn has come, each with the reason of its sample or run |
| `RecoveryOutcomes.RunsStep` | src/loopweave/state.py:476-495 | At every point each run is untouched, loaded from a latest checkpoint, empty for want of one, or corrupted |
| `RecoveryOutcomes.DownStep` | src/loopweave/state.py:464-495 | No step of an attempt changes a record beyond what recovery may fail |
| `RecoveryEnds.ServesAgain` | src/loopweave/state.py:464-495 | From every point of a recovery, without another crash, the server can come to serve again: no recovery is stuck |
| `RecoveryEnds.EveryStepIsNearer` | src/loopweave/state.py:473-495 | Every step of a recovery brings it nearer to its end, so none goes on for ever |
| `RecoveryHistory.HistoryStep` | src/loopweave/training_controller.py:286-318 | Every locked stretch keeps the history exact, the guard in order and the operations distinct |
| `ServerEffects.JoinsAsSubmitted` | src/loopweave/state.py:710-729 | Short of a crash, a submitted operation joins the queue of its run at the back, with its sequence id, under the number after all given before; a save stamped with the latest number, a load with the checkpoint under its key |
| `ServerEffects.ClientLoadRestores` | src/loopweave/training_controller.py:646-671 | A client's load brings back exactly the weights of the moment its checkpoint was captured |
| `ServerEffects.JoinsAtMostOnce` | src/loopweave/state.py:710-732 | A job that was given up, or has joined its queue, never joins one later, crashes included |
| `RecoveryLimits.ReadyButLost` | src/loopweave/state.py:464-495 | The converse of safe retry fails: an update numbered within the stamp but queued behind the save stays ready though the restored weights lack it, and the save's own future stays pending with no runner |
| `RecoveryLimits.CorruptedButNotFailed` | src/loopweave/training_controller.py:781-786 | A crash after a failed load was saved and before the futures were failed: the next recovery skips the run and leaves its futures ready over lost weights, or pending with no runner |
| `Server.ServerState.SaveCheckpoint` | src/loopweave/state.py:718-729 | Reading the current future id and joining the lock's queue are one stretch of the transition system |
| `Server.ServerState.Reboot` | src/loopweave/training_controller.py:154-176 | A crash at any point: the new process reads store and runs and starts a recovery |
| `Server.ServerState.FailPendingSamples` | src/loopweave/state.py:473 | Fails exactly the pending samples |
| `Server.ServerState.MarkRun` | src/loopweave/futures.py:164-181 | Fails the run's futures above what was loaded, or all, and ends its turn |
| `Server.ServerState.SkipRun` | src/loopweave/state.py:477-478 | A corrupted run is passed over |
| `Server.ServerState.LoadRun` | src/loopweave/training_controller.py:764-788 | Loads the latest checkpoint, or finds none, or fails |
| `Server.ServerState.SaveRunCorrupted` | src/loopweave/training_controller.py:783-786 | Saves the flag of a failed load; its futures come next |
| `Server.ServerState.DealWith` | src/loopweave/state.py:476-495 | One turn of the loop: the run is skipped, or done with and restored exactly when it had a checkpoint that loads |
| `Server.ServerState.DealWithAll` | src/loopweave/state.py:476-495 | Every run is done with, each on its own |
| `Server.ServerState.RestoreFromCheckpoints` | src/loopweave/state.py:464-495 | An uninterrupted start-up on the live store and runs ends in a completed recovery of what was found, every run not skipped restored exactly when it had a checkpoint that loads |
| `Server.ServerState.ReloadRuns` | src/loopweave/training_controller.py:154-176 | Every run is reloaded from the store |
| `LossFn.MetricsReduction` | src/loopweave/loss_fn/__init__.py:53-81 | Metrics every batch has are reduced by kind, unique ones numbered, others dropped; it fails exactly when a kind of the first batch is unknown |
| `LossMeaning.CrossEntropyOfOne` | src/loopweave/loss_fn/cross_entropy.py:25 | With one position weighted, cross-entropy is minus its logprob times the weight |
| `LossMeaning.ImportanceSamplingOfOne` | src/loopweave/loss_fn/importance_sampling.py:29-31 | Off policy, with one position of nonzero advantage, the loss is minus the likelihood ratio times the advantage |
| `LossMeaning.PpoOfOne` | src/loopweave/loss_fn/ppo.py:32-41 | PPO equals importance sampling inside the clipping range; outside, the clip bound counts exactly where it lowers the objective |
| `LossMeaning.CispoOfOne` | src/loopweave/loss_fn/cispo.py:32-38 | CISPO weights the logprob by the ratio inside the clipping range and by the bound outside |
| `LossMeaning.DroOfOne` | src/loopweave/loss_fn/dro.py:31-35 | DRO adds half beta times the squared difference of the two logprobs at every position |
| `LossMeaning.LossAdds` | src/loopweave/loss_fn/cross_entropy.py:25 | Cross-entropy is additive in the weights, importance sampling and CISPO in the advantages |
| `LossMeaning.OneTokenCall` | src/loopweave/backends/hf_training_model.py:235-297 | For a batch with weight 1 at one position and 0 elsewhere the call's `loss:sum` is minus the model's logprob there, at every micro-batch size |
| `PaddingTheorems.RowUnchanged` | src/loopweave/backends/hf_training_model.py:319-346 | A padded row's logprobs begin with the datum's own |
| `PaddingTheorems.PenaltyIs` | src/loopweave/loss_fn/dro.py:31-35 | Padded positions add nothing to a loss, or half beta times their squared logprobs in DRO |
| `PaddingTheorems.ExtraIs` | src/loopweave/backends/hf_training_model.py:319-346 | At a padded position the logprob is that of token 0, asked of the row padded with zeros |
| `PaddingTheorems.MicroBatchMeaning` | src/loopweave/backends/hf_training_model.py:304-381 | A padded micro-batch of well-formed data succeeds with the sum of the unpadded losses plus the penalties |
| `PaddingTheorems.OutputRow` | src/loopweave/backends/hf_training_model.py:489-496 | An unpadded row starts with the datum's own logprobs and has a known length |
| `MicroBatchTheorems.SlicesPartition` | src/loopweave/backends/hf_training_model.py:256-259 | The slices cut the batch in order, nothing lost, repeated or moved |
| `MicroBatchTheorems.LossPreserved` | src/loopweave/backends/hf_training_model.py:235-297 | For every positive micro-batch size at which each micro-batch is complete, `loss:sum` is the unsplit, unpadded loss for cross-entropy, importance sampling, CISPO and PPO |
| `MicroBatchTheorems.ForwardLoss` | src/loopweave/backends/hf_training_model.py:235-297 | For every loss `loss:sum` is the unpadded loss plus the penalties of the padded positions |
| `MicroBatchTheorems.SucceedsWhenComplete` | src/loopweave/backends/hf_training_model.py:420-432 | On well-formed data the call succeeds if and only if in each micro-batch every datum has the entries of the first |
| `MicroBatchTheorems.SameEntriesAreComplete` | src/loopweave/backends/hf_training_model.py:420-432 | Data that all have the same entries are complete at every micro-batch size |
| `MicroBatchTheorems.WeightsAddUp` | src/loopweave/backends/hf_training_model.py:275-277 | For every setup, all data and every positive size: if the micro-batches succeed there is one output row per datum and the weights, one per micro-batch, add up to the batch size |
| `MicroBatchTheorems.CallFails` | src/loopweave/backends/hf_training_model.py:235-297 | Size 0 and empty data fail at once; otherwise the first failing micro-batch's error is reported, and else only a table that cannot sum fails the call |
| `MicroBatchTheorems.OutputsPreserved` | src/loopweave/backends/hf_training_model.py:275-276 | One output row per datum, in order, starting with its own logprobs; it is exactly those if and only if its targets are as long as its input or as its micro-batch's longest |
| `MicroBatchLimits.DroDependsOnPadding` | src/loopweave/loss_fn/dro.py:31-35 | A micro-batch's DRO loss is the unpadded one if and only if beta or every padded logprob is zero |
| `MicroBatchLimits.SucceedsWhenPaddedWidthsAgree` | src/loopweave/loss_fn/__init__.py:38-50 | A micro-batch passes the checks exactly when its entries are there and its padded widths agree |
| `MicroBatchLimits.WhichWidthError` | src/loopweave/backends/hf_training_model.py:420-461 | Missing entries are reported first, then targets that do not fit the inputs |
| `MicroBatchLimits.WhichInputError` | src/loopweave/loss_fn/__init__.py:38-50 | Then the first missing input of the loss, then a mismatch of padded shapes |
| `MicroBatchLimits.SoloSucceeds` | src/loopweave/loss_fn/__init__.py:38-50 | A datum alone passes the checks exactly when its targets are no longer than its input, or as long in the full-precision branch, and each loss input is as long as the targets |
| `MicroBatchLimits.SoloIsPlain` | src/loopweave/backends/hf_training_model.py:319-347 | Alone, a datum is not padded: logprobs and loss are the plain ones |
| `MicroBatchLimits.BadShapesCanPass` | src/loopweave/loss_fn/__init__.py:47-50 | Two data that each fail the shape check pass it together |
| `HFTrainingModel.PrepareLossFnInputs` | src/loopweave/backends/hf_training_model.py:420-432 | Pads each float input of the first datum to the longest row; fails exactly when a later datum lacks one |
| `HFTrainingModel.UnpadTensor` | src/loopweave/backends/hf_training_model.py:489-496 | Cuts each row to its length, never past its end |
| `HFTrainingModel.ForwardMicroBatch` | src/loopweave/backends/hf_training_model.py:304-381 | One micro-batch computes the specified loss and outputs, or fails as specified |
| `HFTrainingModel.RunAll` | src/loopweave/backends/hf_training_model.py:256-279 | The loop accumulates loss, outputs, weights and metrics of the micro-batches in turn, and stops at the first failure |
| `HFTrainingModel.Forward` | src/loopweave/backends/hf_training_model.py:235-303 | The whole call, with its error cases: size 0, empty data, a failed micro-batch, an unknown reduction |
| `HFTrainingModel.AddMicroBatch` | src/loopweave/backends/hf_training_model.py:256-279 | One turn of the loop over micro-batches |

## Left out

- Gates, lanes, schedulers and the slow loop: they only delay a stretch, which the models already allow at any point.
- HTTP routes, Redis, Ray, vLLM, torch kernels and gradients, tracing, metrics writers, logs and plots: the store is a map, backends are parameters or nondeterministic outcomes.
- TTL expiry of stored futures and `cleanup`: with them an id can be reused after a restart; the model assumes neither happens.
- A retrieval by someone other than the owner marks the record failed in memory; `Retrieve` states this, but the runs of the transition system contain no such retrieval.
- Cancellation of operations (`CancelledError` is not an `Exception` and leaves a future pending), shutdown, and unloading a model.
- Checkpoint names and counters, visibility, archive URLs, and reuse of one directory by two saves with a crash part-way: a save is atomic and keyed by kind and name.
- Retries by clients: one that resubmits an operation that had not returned by a crash makes a new future, which is not compared with the old one. Each future takes effect at most once (`UpdatesApplyOnce`), and sequence ids that returned are refused (`AcknowledgedNeverRepeats`).
- `heapq` itself and equal sequence ids among pending calls, where the original falls through to comparing functions.
- A run without a backend is treated like a corrupted one: recovery skips both in the same branch. A base model missing from the configuration makes a run corrupted in memory only; the model has no such change of configuration.
- Recovery's `create_adapter` before the load, whose failure the original logs and ignores; and requests that arrive while a recovery is still under way.
- The contents of evaluations, rewards, advantages, prompts and episodes: an episode is the list of items it delivers, at most one per turn.
- Floating-point rounding and wall-clock jitter: time, losses and logprobs are reals.
- A negative micro-batch size, input tensors of more than one dimension, and a metric key without exactly one colon; unknown loss names, which are rejected before any work.
- In the full-precision branch a one-column target is broadcast by torch against a wider input; the model reports any difference in width there as an error.
- TenantTheorems.FifoClosedForm: with failed steps it places a batch by the failures recorded before it, since a failed batch produces no step.
- TenantTheorems.OverCollectionBound: for episodes the last term counts C + 1 requests of the most items an episode can deliver, since the dispatch decided before the quota was met may still run.
- TenantActor.Tenant.NextOwnTurn: the serial loop's turns are not counted against the episode's maximum, so more schedules are allowed than the original has.
- RunHistory.AppliedDecides: speaks of one stretch of history without loads or restarts; `WeightsDecided` is the general case.
- GuardHistory.RefusedExactly: speaks of one process; what holds of returned ids through crashes is `AcknowledgedNeverRepeats`. Counting a return and saving the count, which the original awaits inside the lock, are one stretch here.
- SaveOrder.QueueDecides: an update queued ahead of the save is in the checkpoint when it succeeds, which is not known yet when the save joins.
- RecoveryTheorems.ReadyIsRestoredExactly: needs that no load or restart lies between effect and capture; `CheckpointContainsExactly` covers the rest.
- RecoveryTheorems.LatestCheckpointLosesLeast: checkpoints created at the same instant are not compared, since either may be returned.
- PipelineTheorems.HorizonThenHoldBound: the bound on the start needs wake-ups exactly when asked for; the other timing results hold for any clock.
- PipelineTheorems.AliasedAdapterKept: L1 is not claimed unconditionally, since versions are reported only when the RL scheduler is on.
