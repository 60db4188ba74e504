# KV offload engine: a verified model

This project models the KV-block offload engine of `offload_package` and proves what its runs keep.
The engine moves logical KV blocks between three places while requests run: the block's own GPU page, a CPU slot,
and a GPU staging page. Its aim is that offloading is observationally identical to not offloading.

## How it is built

* **Values first.** Each mutable structure has a value view (`Table`, `Pool`, `Store`, `Worker`, `Tally`, `Core`, `State`)
  and each operation a function or relation on views.
* **Classes second.** `ResidencyTable`, `KVMemory`, `CPUBlockPool`, `KVOffloadManager`, `PagedEvictionScorer`,
  `LRUScorer`, `KVStagingPool`, `OffloadOrchestrator`, `BlockPool`, `OffloadScheduler` and `StoreWorker` have the
  source's fields and loops. Every method is proved to do exactly what its function or relation says.
* **One state machine.** `Engine` puts the views together: residency, staging, CPU slots, scores, request lists, GPU and
  CPU contents, block tables, page reference counts, token counts and store events. `EngineRuns.Step` has thirteen kinds
  of action, including arbitrary overwriting of every page and slot nobody owns, failed copies, and offload triggers at
  any time. `EngineRuns.RunKeepsInv` is the inductive invariant of all runs; `EngineTheorems` draws the promises from it.
  What a block should hold is told by the writes of the run alone (`EngineContents.LastWritten`), and it is proved to be
  what its location holds, wherever offloading and staging have moved it.
* **Classes refine the machine.** `Scheduling` proves that the connector's entry points are runs of it: a whole
  scheduling step, a worker report, a prefetch and the end of a request, from any state that keeps the invariant. Which
  run a scheduling step is can be read off its inputs: `ServingScript.StepMoves` lists its syncs, offloads and
  promotions in order, and the step makes these and no others.
* **A second state machine** (`StoreProtocol`) has any number of workers, GPU events that finish in any order, and
  reports that are merged and delivered in any order.

| file | subject |
|---|---|
| `Blocks`, `Ranking`, `Moves` | block names, locations, list operations; eviction order; batched table writes |
| `Residency`, `Layout`, `Memory` | residency table; page layouts; GPU and CPU caches with batched copies |
| `Scoring`, `Lru`, `Norms`, `Scores` | paged-eviction and LRU scorers; per-layer norms and the fused kernel; a page's score from them |
| `Offload`, `Staging`, `StagingTheory`, `StagingPool` | offload pass; three-phase fetch and its exact outcome; the staging pool |
| `Selection`, `Patching`, `PatchedView`, `PatchLoop`, `ReadPath` | blocks of a selection; rewritten page indices; what reading through them yields; the rewrite against the loop it replaced; prefetch and rewrite together |
| `Orchestration`, `Allocation`, `Handovers`, `ServingScript`, `Scheduling` | the orchestrator; the page pool; what a step is handed and the moves that follow from it; the scheduler's connector |
| `StoreEvents`, `StoreProtocol`, `StoreTally` | worker watermark and report merging; the whole protocol; counting a report |
| `Engine`, `EngineTables`, `EngineSync`, `EngineWrites`, `EngineOffload`, `EngineStage`, `EngineFinish`, `LagGate` | the engine state machine and what each group of its steps keeps |
| `EngineRuns`, `EngineTheorems`, `EngineContents` | runs, and the promises over all of them |
| `EngineFilling` | pages still being filled: when a write is harmless, and runs in which they are never shared |
| `EnginePages`, `EngineEnabled`, `EngineLimits` | a smaller invariant for states outside the full one; steps that can be taken; where promises end |
| `EngineLinks` | the classes' contracts as steps of the engine |

## Where a promise needs a condition

Some properties hold only under a condition. For each of them the exact condition is proved, in both directions.

* **Late store completions.** With true freeing, a request that ends and comes back under the same name can be given
  the same page for the same position while its old store event is still pending. The surgery check at
  `offload_package/integration/scheduler_connector.py:588` cannot tell, and takes the page away from a live block.
  `LateCompletionRun` exhibits the run (allocate, sync, offload, flush, finish, allocate again, sync, complete), from
  the start of every configuration with a CPU slot. After binding a free page, no later course of events puts a GPU
  block on a free page if and only if true freeing is off or no recorded entry names that very position and page
  (`AllocSafeIff`). The same condition decides for a shared page whether every GPU block's table entry stays its own
  page (`ShareSafeIff`). The steps of a run carry this condition, in true-freeing mode only.
* **Preemption.** Worker-side preemption handling is empty and nothing calls `on_request_preempted`. After giving up a
  request's pages without cleanup, every later course of events keeps GPU blocks off free pages if and only if the
  request has no block on the GPU (`SilentPreemptSafeIff`). Sharing the page with another request only delays the
  damage until that request finishes (`SharedThenFinished`). In runs a preemption is a `FinishRequest` step, which
  cleans up first.
* **Events of full blocks.** A recorded entry names a full block as long as its request stays tracked
  (`RecordedStaysFull`) and, with true freeing, whenever it still matches the block table (`MatchingEntryIsFull`). Over
  a whole run every recorded entry whose request is tracked names a full block if and only if each sync that tracks a
  request anew covers the entries recorded under its name (`EventsFullIff`). A request that comes back with fewer
  tokens shows the failure (`LateEventNamesUnfilledBlock`).
* **Hits on pages still being filled.** The allocator lets a page be hit from the moment it is handed out
  (`vllm-0.29.0/vllm/v1/core/kv_cache_manager.py:558-562`), so a second request can be full on a page the first one is
  still filling. A write to a page is meant for every block bound to it. It leaves every block's location with its
  contents if and only if no block bound to the page has been copied away, unless with the very contents written
  (`WriteSafeIff`). The steps of a run carry this condition. In shadow mode it fails: `EarlyCopyRun` hits the page,
  offloads the second request's block, and lets the first fill the page. With true freeing no block is copied away
  from a page that anybody else is bound to (`TrueFreeLeaversAreAlone`). A full block keeps its contents over a stretch
  of a run if and only if the last write to its page in between, should there be one, wrote them (`DataIntegrity`). Where
  hits go only to pages whose tracked blocks are full, and what a sync finds not full has its page to itself, nothing has
  to be asked of writes and full blocks never change (`OrderlyRunIsRun`, `OrderlyDataIntegrity`).
* **Staged blocks in a fetch.** `ensure_resident` does not protect blocks that are staged already. The map it returns is
  truthful if and only if none of them is among the coldest occupants it evicts (`TruthfulIffHitsSurvive`, with the
  concrete case `BatchEvictsItsOwnHit`). A whole selection is readable afterwards under the corresponding condition
  (`SelectionReadableIff`).
* **Head 0's length.** `collect_needed_block_refs` agrees with the per-head loop on all contents if and only if all heads'
  lengths cut where head 0's does (`FastCollectAgreesIff`).
* **Row mismatch.** With no staged blocks to place, every call of the vectorised index rewrite leaves what the per-position
  loop leaves, on all arrays of a size, if and only if the two have the same pairs of position and page
  (`PatchEqualsLoopIff`). The loop has one pair for each row position whose block is off the GPU. The rewrite has one for
  each such block of a request with as many tracked blocks as its row has positions, placed by the block's own index.
  A table with gaps can meet or miss this in ways the rows do not show (`GapWritesOutside`, `GapDoesNoHarm`). In every
  state of a run there are no gaps, and the condition is that every row matches the tracked blocks or has nothing to
  rewrite (`ReachablePatchEqualsLoopIff`).
* **Rows of the index array.** Whatever batch it is given, the rewrite makes exactly the first pass's writes in order and
  one scatter, and stops at the first position outside the array (`PatchPagedKvIndices`). When rows lie one after the
  other, no request comes twice and tracked blocks have no gaps, it succeeds and every position ends as residency, fetch
  or original says (`PatchRewrites`).
* **float32 ticks.** LRU eviction follows true recency after every history of at most n selections if and only if n is at
  most 2^24 (`RecencyExactIff`); `LatestSelectionIsEvicted` has the first history for which it does not.

Where code and comments disagree the code is followed: fraction 0 still offloads one block, and `mark_gpu` keeps an old
CPU slot (that GPU blocks hold none is an invariant of the engine, resting on `SyncNeverRebinds`).

## Assumptions

* The page pool is reference counts, a free set and a null page nobody counts. A prefix hit may bind any live page below
  the staging tail.
* At each scheduling step the pages handed over for a request complete the connector's copy of its block table, token
  counts do not shrink, no request comes twice, and none carries the warm-up prefix (`Handovers.HandedOver`).
* A copy succeeds or fails after some layer (`reach`); waiting again on a store event that was already waited for does
  not fail; the GPU event query is a set of finished events.
* Scores are reals, and the square root is a parameter of which only non-negativity is used.
* The offload fraction is a real; the trigger is free to fire at any time, which covers every interval setting.

## Model

| member | source | states |
|---|---|---|
| EngineRuns.RunKeepsInv | offload_package/integration/manager.py:61-111 | every state of every run keeps the whole invariant: partitions, placement, counts, fill state, scores, contents, events |
| EngineRuns.StepKeepsInv | offload_package/integration/scheduler_connector.py:248-388 | each of the thirteen kinds of step keeps it |
| EngineRuns.InitEstablishesInv | offload_package/cache_allocator.py:22-55 | start-up with the tail reserved establishes it |
| EngineContents.HoldsLastWritten | offload_package/integration/manager.py:61-111 | at every point of every run a block is tracked iff the writes to its page so far give it contents, and its recorded location holds exactly those; offloads, stagings and completions do not enter into them |
| EngineTheorems.DataIntegrity | offload_package/staging/pool.py:71-254 | a block full at one point of a run and tracked since holds, at its present location (for a staged block at both copies), the contents it had then iff the last write to its page since, if any, wrote them |
| EngineTheorems.HoldsLogical | offload_package/integration/manager.py:61-111 | in any state with the invariant every tracked block's recorded location holds the block's bookkept contents |
| EngineTheorems.FullBlocksAreFrozen | offload_package/integration/manager.py:133-156 | a full block stays full while it is tracked, and only writes to its page change its contents |
| EngineFilling.OrderlyDataIntegrity | offload_package/staging/pool.py:71-254 | in a run whose hits and syncs leave pages being filled to one block, a full block tracked since holds exactly the contents it had |
| EngineFilling.OrderlyRunIsRun | offload_package/integration/manager.py:61-111 | such a run is a run with nothing asked of its writes, and a block being filled always has its page to itself |
| EngineFilling.WriteSafeIff | offload_package/offload/manager.py:319-375 | a write leaves every location with its block's contents iff no block bound to the page has been copied away with other contents |
| EngineFilling.EarlyCopyRun | vllm-0.29.0/vllm/v1/core/kv_cache_manager.py:558-562 | in shadow mode, a run from start-up in which a page is hit before it is filled, copied, and the copy is stale once it is filled |
| EngineFilling.TrueFreeLeaversAreAlone | offload_package/integration/scheduler_connector.py:423-436 | with true freeing a block copied away was the only one bound to its page |
| EngineTheorems.TrueFreeSafety | offload_package/integration/scheduler_connector.py:540-612 | in every run no GPU block sits on a free or tail page, and each page's count is the table entries on it plus one on the tail |
| EngineTheorems.CompletionFreesOnlyOffloaded | offload_package/integration/scheduler_connector.py:580-611 | a completion changes an entry only to the null page and only for a block that has left the GPU |
| EnginePages.SurgeryNIsThorough | offload_package/integration/scheduler_connector.py:582-603 | after a completion no entry of its event still points at its page |
| EnginePages.SurgeryNEntries | offload_package/integration/scheduler_connector.py:582-603 | an entry is rewritten only if the event names exactly that position and page |
| EngineTheorems.OnlyFullBlocksLeave | offload_package/integration/manager.py:70-85 | a block off the GPU has all its tokens computed, in every reachable state |
| EngineTheorems.TriggerRecordsFullBlocks | offload_package/integration/scheduler_connector.py:423-500 | at the moment of recording, what a trigger records is full and on the CPU; `EngineLimits.EventsFullIff` has the rest of its life |
| EngineTheorems.TriggerRecordsWhatLeaves | offload_package/integration/scheduler_connector.py:457-500 | a trigger records exactly the blocks that leave the GPU, each once and with the page it leaves, behind what was recorded before |
| EngineTheorems.CpuSlotsAddUp | offload_package/offload/manager.py:13-29 | in every run free CPU slots and blocks off the GPU add up to the pool |
| EngineTheorems.NoLeaks | offload_package/integration/manager.py:341-354 | once no request is tracked both pools are full and table, scored set and scores are empty |
| EngineTheorems.LagGateSound | offload_package/integration/manager.py:208-220 | if the version reads the same at two points of a run, the CPU-resident set, the staged slots and all locations off the GPU are the same at every point between |
| EngineTheorems.RunGated | offload_package/staging/residency.py:52-112 | the version never decreases along a run |
| EngineTheorems.StepGated | offload_package/staging/residency.py:52-112 | each step moves the version or moves nothing off the GPU; full blocks stay full and change only by writes to their page |
| EngineTheorems.ShadowReadsOwnPages | offload_package/integration/scheduler_connector.py:560-565 | without true freeing every tracked block still reads its contents through its own block table |
| EngineLimits.AllocSafeIff | offload_package/integration/scheduler_connector.py:582-611 | after binding a free page no continuation puts a GPU block on a free page iff true freeing is off or no recorded entry names that position and page |
| EngineLimits.ShareSafeIff | offload_package/integration/scheduler_connector.py:582-611 | after a prefix hit every continuation leaves each GPU block its own page in the table, under the same condition |
| EngineLimits.LateCompletionRun | offload_package/integration/scheduler_connector.py:582-603 | a run from start-up that leaves an event behind, and a continuation in which it frees the page of a live GPU block |
| EngineLimits.SceneExists | offload_package/integration/scheduler_connector.py:201-236 | every configuration with a CPU slot has the starting state these runs begin in |
| EngineLimits.SilentPreemptSafeIff | offload_package/integration/worker_connector.py:266-268 | giving up a request's pages without cleanup is safe in all continuations iff the request has no block on the GPU |
| EngineLimits.SharedThenFinished | offload_package/integration/worker_connector.py:266-268 | a run in which the pages are still shared at the preemption, and free with a GPU block on them once the sharer finishes |
| EngineLimits.EventsFullIff | offload_package/integration/scheduler_connector.py:423-500 | in all states of a run recorded entries of tracked requests name full blocks iff every sync covers the entries recorded under its request's name |
| EngineLimits.StepKeepsEventsFullIff | offload_package/integration/scheduler_connector.py:423-500 | the same, step by step |
| EngineLimits.RecordedStaysFull | offload_package/integration/scheduler_connector.py:276-304 | a full block stays full while its request is tracked |
| EngineLimits.MatchingEntryIsFull | offload_package/integration/scheduler_connector.py:582-603 | with true freeing an entry that still matches the table names a full block |
| EngineLimits.LateEventNamesUnfilledBlock | offload_package/integration/scheduler_connector.py:276-304 | a run in which a pending entry names a block that is not full |
| EnginePages.PageInvIsForever | offload_package/integration/scheduler_connector.py:540-612 | a smaller invariant of pages and tables keeps GPU blocks on held pages of their own in every continuation |
| EngineTables.AllocKeepsInv | offload_package/integration/scheduler_connector.py:285-304 | binding a free page keeps the invariant |
| EngineTables.ShareKeepsInv | offload_package/integration/scheduler_connector.py:423-436 | binding any live page once more keeps it |
| EngineTables.CompleteKeepsInv | offload_package/integration/scheduler_connector.py:540-612 | consuming a store event and its surgery keep it |
| EngineTables.SurgeriesKeepInv | offload_package/integration/scheduler_connector.py:582-603 | so does every prefix of the surgery loop, and the remaining entries stay safe |
| EngineTables.FlushKeepsInv | offload_package/integration/scheduler_connector.py:358-384 | flushing the accumulator keeps it |
| EngineSync.SyncKeepsInv | offload_package/integration/manager.py:61-111 | a sync keeps it |
| EngineSync.SyncNeverRebinds | offload_package/integration/manager.py:72-85 | a sync of the append-only list never moves a tracked block to another page |
| EngineSync.SyncTableEffect | offload_package/integration/manager.py:66-85 | exactly which blocks a sync adds, completes and leaves alone |
| EngineWrites.WriteKeepsInv | offload_package/integration/manager.py:133-141 | writing tokens into a block that is not full keeps the invariant, if no block bound to the page has been copied away |
| EngineWrites.ScribblePageKeepsInv | offload_package/integration/manager.py:73-77 | so does overwriting any unreferenced page or the null page |
| EngineWrites.ScribbleStagingKeepsInv | offload_package/cache_allocator.py:24-30 | so does overwriting any free staging page |
| EngineWrites.ScribbleCpuKeepsInv | offload_package/offload/manager.py:319-375 | so does overwriting any free CPU slot |
| EngineOffload.TriggerKeepsInv | offload_package/integration/scheduler_connector.py:406-503 | an offload trigger keeps the invariant, whether it publishes or not |
| EngineOffload.CandidateFacts | offload_package/integration/scheduler_connector.py:423-438 | the candidates are exactly the complete blocks on the GPU, with true freeing those alone on their page, without repeats |
| EngineOffload.CandidatesAreScored | offload_package/scoring/paged_eviction.py:67-80 | in reachable states every candidate is scored already |
| EngineOffload.TriggerChoiceIsOk | offload_package/offload/manager.py:222-246 | so the choice never raises for a fraction in [0, 1) |
| EngineOffload.OffloadedCopies | offload_package/offload/manager.py:319-375 | each new CPU copy unpacks to its page's contents; occupied slots are untouched |
| EngineOffload.OffloadedPartition | offload_package/offload/manager.py:249-284 | slots given to offloaded blocks keep free list and copies a partition |
| EngineStage.StageKeepsInv | offload_package/staging/pool.py:71-196 | any fetch, successful or rolled back, of any list keeps the invariant |
| EngineStage.ServedIntact | offload_package/staging/pool.py:125-196 | after a served fetch every block's copies hold its contents |
| EngineStage.RolledBackIntact | offload_package/staging/pool.py:180-186 | so they do after a failed copy |
| EngineStage.ReleaseKeepsInv | offload_package/staging/pool.py:239-254 | releasing a block keeps the invariant |
| EngineFinish.FinishKeepsInv | offload_package/integration/manager.py:348-354 | cleanup and the return of the pages keep the invariant |
| EngineFinish.CleanedFacts | offload_package/integration/manager.py:348-354 | after n blocks of the cleanup loop exactly those are gone and both pools are partitioned |
| EngineFinish.NothingLeaks | offload_package/offload/manager.py:415-419 | no tracked request means full pools and empty tables |
| EngineFinish.GpuPagesAreHeld | offload_package/integration/scheduler_connector.py:423-436 | a GPU block's page has a reference and lies below the tail |
| LagGate.PutNGated | offload_package/staging/residency.py:52-112 | a batch of lawful table writes moves the version or nothing off the GPU |
| LagGate.FetchGated | offload_package/staging/pool.py:181-237 | a fetch is such a batch |
| Residencies.ResidencyTable.MarkGpu | offload_package/staging/residency.py:52-63 | the new table, keeping counter, version and index in step with a scan |
| Residencies.ResidencyTable.MarkComplete | offload_package/staging/residency.py:65-67 | likewise; unknown blocks are refused |
| Residencies.ResidencyTable.MarkCpu | offload_package/staging/residency.py:69-81 | likewise |
| Residencies.ResidencyTable.MarkStaging | offload_package/staging/residency.py:83-96 | likewise; refused without a CPU copy |
| Residencies.ResidencyTable.Remove | offload_package/staging/residency.py:101-112 | likewise; returns the location dropped |
| Residencies.ResidencyTable.AllGpuBlocks | offload_package/staging/residency.py:114-118 | the complete GPU blocks in dictionary order |
| Residencies.ResidencyTable.RefsForRequest | offload_package/staging/residency.py:120-124 | the index lookup equals the sorted filter of the whole table |
| Residencies.PutAgrees | offload_package/staging/residency.py:28-96 | after a write the counter equals the number of CPU blocks and the index holds exactly the keys, with no empty inner map |
| Residencies.RemoveAgrees | offload_package/staging/residency.py:101-112 | so it does after a removal |
| Residencies.VersionCountsCpuChanges | offload_package/staging/residency.py:52-112 | the version moves iff the set of CPU blocks moves |
| Residencies.ContiguousListing | offload_package/staging/residency.py:120-124 | with contiguous indices the listing is blocks 0 to n-1 |
| Ranking.RankedInEvictionOrder | offload_package/scoring/paged_eviction.py:81-87 | the ranking is ascending by score, ties in list order |
| Ranking.PrefixIsColdest | offload_package/scoring/paged_eviction.py:81-87 | any prefix of it is colder than everything left behind |
| Ranking.StableOrderIsUnique | offload_package/scoring/paged_eviction.py:84-87 | no other arrangement is a stable ascending sort |
| Layout.PageRoundTrip | offload_package/offload/manager.py:337-365 | storing a page and fetching it back is the identity, for all sizes |
| Layout.PlaneRoundTrip | offload_package/staging/pool.py:149-168 | likewise per layer, and the stored plane has shape [2, N, H, C] |
| Layout.SlotRoundTrip | offload_package/staging/pool.py:149-168 | fetching a slot and storing it again is the identity |
| Memory.StoreThenFetch | offload_package/offload/manager.py:319-375 | a batched store followed by a batched fetch returns every page |
| Memory.ScatterByLayer | offload_package/offload/manager.py:337-365 | writing layer by layer is writing whole pages |
| Memory.KVMemory.StoreBatch | offload_package/offload/manager.py:337-365 | the batched store equals storing each block; other slots are untouched even if it fails |
| Memory.KVMemory.FetchBatch | offload_package/staging/pool.py:139-168 | the batched fetch equals fetching each block; other pages are untouched even if it fails |
| Scoring.ColdestIsOptimal | offload_package/scoring/paged_eviction.py:67-87 | the choice has the right size, and on the recorded scores every block chosen goes before every block kept: none before some, lower before higher, equals in list order |
| Scoring.PagedEvictionScorer.Update | offload_package/scoring/paged_eviction.py:47-56 | one decayed observation per block, in order |
| Scoring.ObservedMoves | offload_package/scoring/paged_eviction.py:47-56 | an observation changes one score: a first one is taken as it is, a later one moves the score towards it by the decay, all the way at 1 and not at all at 0 |
| Scoring.PagedEvictionScorer.UpdateStats | offload_package/scoring/paged_eviction.py:31-56 | the observations are V over K plus eps per head, reduced by mean or minimum |
| Norms.SumIsUnique | offload_package/scoring/paged_eviction.py:36-37 | a list of numbers has one sum, so what is said to be a mean is the mean |
| Scores.BlockScoreMeans | offload_package/scoring/paged_eviction.py:31-40 | under "min" the score is one of the ratios of V to K plus eps and at most each of them; under "mean" it is their mean |
| Scoring.PagedEvictionScorer.SelectForEviction | offload_package/scoring/paged_eviction.py:67-87 | that choice; raises on a negative budget and on unscored blocks |
| Scoring.PagedEvictionScorer.Forget | offload_package/scoring/paged_eviction.py:89-91 | exactly the named scores are dropped |
| Offloading.OffloadCountInRange | offload_package/offload/manager.py:233 | the count lies in [1, m] and is m*f to the nearest whole number, halves upwards, or one where that is none |
| Offloading.FractionChoiceIsColdest | offload_package/offload/manager.py:222-246 | of the eligible blocks (exactly the scored, complete, GPU-resident candidates) that many are chosen, and they are the ones that go first by their recorded scores; it raises iff one has no score |
| Offloading.FractionChoiceIsEligible | offload_package/offload/manager.py:222-229 | each is a scored, complete, GPU-resident candidate, none twice |
| Offloading.KVOffloadManager.OffloadFraction | offload_package/offload/manager.py:206-284 | all chosen blocks move to distinct slots with their contents, or nothing changes |
| Offloading.KVOffloadManager.CopyGpuToCpuBatch | offload_package/offload/manager.py:319-375 | slots popped and filled, or handed back |
| Offloading.KVOffloadManager.ScoreBlocks | offload_package/offload/manager.py:104-154 | batched scoring, with norms from the fused kernel or layer by layer, equals scoring the kept blocks one at a time by the score of their page |
| Offloading.KVOffloadManager.ScoreBlock | offload_package/offload/manager.py:70-102 | one block: layer-averaged head norms, V over K plus eps, reduced over heads, then decayed; warm-up requests are left out |
| Scores.PageScoreMeans | offload_package/offload/manager.py:70-102 | a page's score from its contents: per head the mean over layers of the norms of the V half over that of the K half plus eps; then the smallest over heads, or the mean |
| Offloading.WarmupNames | offload_package/offload/manager.py:73-74 | the requests left out are those whose name starts with the marker, longer names included |
| Offloading.KVOffloadManager.ScoreBatch | offload_package/offload/manager.py:122-154 | each observation of the batch is its page's score |
| Scores.MeanRowIsLayerMeans | offload_package/offload/manager.py:131-152 | averaging the [L, B, H] norms over layers gives each page's layer means |
| Scores.PerLayerNorms | offload_package/offload/manager.py:134-150 | the per-layer form fills every cell with its page's norm mean |
| Scores.FusedNorms | offload_package/offload/triton_score.py:78-131 | so does the fused form |
| Offloading.KVOffloadManager.Free | offload_package/offload/manager.py:415-419 | table entry, CPU slot and score of the block go, nothing else |
| StagingPools.KVStagingPool.EnsureResident | offload_package/staging/pool.py:71-196 | the fetch follows the closed-form plan: lookups, evictions, copies, publication, or rollback; the pool is ready for the next call |
| StagingPools.KVStagingPool.AllocateSlot | offload_package/staging/pool.py:198-237 | a free slot, else that of the staged occupant, among those whose slot is not reserved in this batch, that goes first by its recorded score |
| StagingPools.KVStagingPool.Release | offload_package/staging/pool.py:239-254 | the slot is free again and the CPU copy is the location |
| Staging.RemainingAreCandidates | offload_package/staging/pool.py:206-237 | no occupant left holds a reserved slot, so nothing reserved is evicted and the desync branch is unreachable |
| Staging.EvictionWalksTheRanking | offload_package/staging/pool.py:206-237 | evicting one minimum after another walks the stable ranking |
| StagingTheory.EnsureKeepsSettled | offload_package/staging/pool.py:71-196 | after success or failure free list and occupancy partition the slots, and occupancy is exactly the STAGING blocks |
| StagingTheory.ReleaseKeepsSettled | offload_package/staging/pool.py:239-254 | so they do after a release |
| StagingTheory.FetchOutcome | offload_package/staging/pool.py:81-123 | of n distinct CPU blocks exactly the first min(n, slots) are staged at distinct slots, the rest skipped in order, and the evicted are the coldest max(0, m - free) |
| StagingTheory.FetchEvictsLowest | offload_package/staging/pool.py:206-237 | the evicted are the lowest by the recorded scores: unscored ones first, among equals the least recently used |
| StagingTheory.PlanEvictsLowest | offload_package/staging/pool.py:83-123 | the same for any list asked for, once its hits count as just used |
| Staging.MovedKeepsOrder | offload_package/staging/pool.py:90 | a hit becomes the most recently used and all others keep their order |
| Blocks.DedupKeepsOrder | offload_package/staging/pool.py:83 | repeats in a list are dropped and first occurrences keep their order |
| StagingTheory.TruthfulIffHitsSurvive | offload_package/staging/pool.py:81-123 | the returned map is truthful iff no block of the batch that was staged already is evicted by it |
| StagingTheory.BatchEvictsItsOwnHit | offload_package/staging/pool.py:89-123 | a concrete batch that is served, and whose returned map is untruthful however it is served |
| Selection.CollectNeededBlockRefs | offload_package/selection/adapter.py:11-46 | without repeats exactly the blocks of the first tokens by head 0's length, negative positions included, in batch and block order; shape errors raise |
| Selection.FastCollectAgreesIff | offload_package/selection/adapter.py:29-46 | it agrees with the per-head loop on all contents iff all heads cut where head 0 does |
| Selection.UniqueBlocks | offload_package/selection/adapter.py:40 | the distinct block numbers, ascending |
| Selection.KeptPositions | offload_package/selection/adapter.py:30 | the clamped length keeps exactly the positions before it; a slice with a negative length all but that many last ones |
| Patching.PatchPagedKvIndices | offload_package/selection/adapter.py:49-154 | for any batch and rows: the staged writes in order, then one scatter of the residency pairs; which error is raised when, and what the array holds then; in place or on a copy |
| Patching.PatchRewrites | offload_package/selection/adapter.py:49-154 | for distinct requests, consecutive rows and no gaps it succeeds, every row position ends as residency, fetch or original says, and nothing else changes |
| Patching.CollectRemedies | offload_package/selection/adapter.py:116-146 | the scattered pairs are exactly those of the tracked blocks off the GPU in rows as long as the request's tracked blocks, gaps or not |
| PatchedView.PatchedReadsLogical | offload_package/selection/adapter.py:49-154 | through the rewritten entry a GPU or STAGING block reads its true contents, a CPU block the null page |
| PatchedView.StagingMapIsIrrelevant | offload_package/selection/adapter.py:96-114 | the result is the same for all staging maps that name no GPU block |
| PatchLoop.PatchEqualsLoopIff | offload_package/selection/adapter.py:116-154 | without staged blocks every call equals the per-position loop, positions outside rows included, iff the pairs of rows that count right, placed by the blocks' indices, are the loop's |
| PatchLoop.ReachablePatchEqualsLoopIff | offload_package/selection/adapter.py:116-154 | in a state with the invariant that is: each row matches or has nothing to rewrite |
| PatchLoop.GapWritesOutside | offload_package/selection/adapter.py:121-141 | a table with a gap whose row has nothing to rewrite, and a call that writes outside it |
| PatchLoop.GapDoesNoHarm | offload_package/selection/adapter.py:121-141 | a table with a gap whose row does not match, and all calls equal the loop |
| PatchedView.BlocksAreContiguous | offload_package/integration/manager.py:66-85 | in reachable states a request's blocks are contiguous from 0 |
| PatchedView.ShadowPatchedReadsEverything | offload_package/integration/manager.py:279-298 | without null page and true freeing every position of a matching row reads its block's contents |
| PatchedView.SelectionReadableIff | offload_package/integration/manager.py:221-239 | after fetching a selection's cold blocks, if any, all of it is readable iff they fit and no selected staged block is among the evicted |
| ReadPath.PrefetchReadableIff | offload_package/integration/manager.py:201-250 | after a prefetch whose copies land every selected tracked block is readable iff the cold ones fit and no selected staged block is among the evicted |
| ReadPath.PatchCallReads | offload_package/selection/adapter.py:49-154 | a rewrite in a state with the invariant succeeds and every position of every matching row reads its block's contents, or the null page for a CPU block |
| ReadPath.PrefetchAndPatch | offload_package/selection/adapter.py:63-154 | prefetch, then rewrite in place with the null page given: unless the prefetch raises, every matching row reads its blocks |
| Orchestration.OffloadOrchestrator.SyncRequestBlocks | offload_package/integration/manager.py:61-111 | table, scored set and list after a sync; each block scored by it follows its own page's score, all other scores stay; the staging pool stays in step; warm-up names change nothing |
| Orchestration.OffloadOrchestrator.OnPrefillComplete | offload_package/integration/manager.py:113-156 | exactly the full blocks become complete, and those on the GPU without score are scored, each by its own page |
| Orchestration.OneByOneIsRescored | offload_package/offload/manager.py:104-154 | scoring a list without repeats leaves each of its blocks with its old score moved by its own page's score, and no other score changed |
| Orchestration.PrefillAfterSyncIsIdle | offload_package/integration/manager.py:133-156 | after a sync with the same token count it changes nothing |
| Orchestration.OffloadOrchestrator.PrepareStaging | offload_package/integration/manager.py:201-250 | skipped at an unchanged version, else a fetch of the selection's CPU blocks |
| Orchestration.OffloadOrchestrator.PromoteHotCpuBlocks | offload_package/integration/manager.py:300-339 | a fetch of at most the given number of the request's CPU blocks; by the recorded scores none left behind is higher than a picked one |
| Orchestration.ReversedRankingIsHottest | offload_package/integration/manager.py:325-327 | nothing left behind scores higher than a promoted block |
| Orchestration.OffloadOrchestrator.CleanupRequest | offload_package/integration/manager.py:348-354 | the engine's cleanup, block by block |
| Allocation.ReserveStagingTail | offload_package/cache_allocator.py:22-55 | succeeds iff the tail is unused and leaves out the null page; then it is pinned and no longer allocatable |
| Allocation.StartPool | offload_package/integration/scheduler_connector.py:217-236 | a fresh pool with reserved tail meets the engine's start condition |
| Scheduling.OffloadScheduler.TriggerGlobalOffload | offload_package/integration/scheduler_connector.py:406-503 | the engine's offload trigger: candidates, rescoring of each by its own page, choice, copy, record; it raises iff the choice does |
| Scheduling.OffloadScheduler.Rescore | offload_package/integration/scheduler_connector.py:440-455 | every candidate's score follows the score of the page it is on, all other scores stay, and all candidates count as scored |
| Scheduling.OffloadScheduler.FlushStoreEvents | offload_package/integration/scheduler_connector.py:358-384 | all batches of the step become one event under a new number |
| Scheduling.OffloadScheduler.ProcessStoreCompletion | offload_package/integration/scheduler_connector.py:540-612 | the engine's completion step; a second call changes nothing |
| Scheduling.OffloadScheduler.SwapEntries | offload_package/integration/scheduler_connector.py:580-603 | swapping first and freeing at the end equals entry-by-entry surgery |
| Scheduling.OffloadScheduler.UpdateConnectorOutput | offload_package/integration/scheduler_connector.py:530-538 | counts, pending events and processed events after a report, in any order of its entries; the new state is the old one with exactly the processed events completed, one after the other |
| Scheduling.OffloadScheduler.SyncCached | offload_package/integration/scheduler_connector.py:276-304 | append, or start over on resume, then sync the full list |
| Handovers.FullListIsTheTable | offload_package/integration/scheduler_connector.py:289-303 | appending the new tail gives the block table itself |
| Scheduling.OffloadScheduler.RequestFinished | offload_package/integration/scheduler_connector.py:622-632 | orchestrator state and the table copy of the request go |
| Scheduling.OffloadScheduler.BuildConnectorMeta | offload_package/integration/scheduler_connector.py:248-388 | a whole scheduling step makes exactly the moves its inputs spell out, in order, then flushes one event iff something was recorded; who is past the prefill afterwards; on an error it has made the moves up to there; with a legal fraction and copies that land there is none |
| Scheduling.OffloadScheduler.ServeAll | offload_package/integration/scheduler_connector.py:271-330 | all syncs and offloads of a step, exactly those its inputs spell out, and the prompt lengths and completed prefills afterwards |
| Scheduling.OffloadScheduler.SyncArrivals | offload_package/integration/scheduler_connector.py:271-280 | one sync per new request, with its own list, and its prompt length is known |
| Scheduling.OffloadScheduler.ServeCached | offload_package/integration/scheduler_connector.py:282-319 | running requests in order: one sync each and then the offloads it sets off |
| Scheduling.OffloadScheduler.ServeOne | offload_package/integration/scheduler_connector.py:282-319 | one running request: its sync, one offload iff its prefill has just ended, one iff it is due |
| Scheduling.OffloadScheduler.OffloadDue | offload_package/integration/scheduler_connector.py:304-319 | the two offloads of a running request and who is past the prefill then; the second is left out only if the first raises |
| Scheduling.OffloadScheduler.FinishPrefills | offload_package/integration/scheduler_connector.py:321-330 | one offload per new request whose prompt is computed already and that is not past its prefill yet |
| ServingScript.MakesReaches | offload_package/integration/scheduler_connector.py:248-388 | the moves of a step are steps of the engine |
| ServingScript.MakesRecords | offload_package/integration/scheduler_connector.py:358-384 | only offloads add to what is to be stored, and no move before the flush numbers an event |
| ServingScript.ActivePromotions | offload_package/integration/scheduler_connector.py:390-399 | the active requests are the running ones past their prefill, in order |
| ServingScript.IdlePromotions | offload_package/integration/scheduler_connector.py:344-356 | where the promotion loop is skipped because nothing is on the CPU it would have changed nothing |
| ServingScript.PromotedIsMove | offload_package/integration/manager.py:300-339 | a promotion is the engine's staging of the request's highest-scored CPU blocks, or nothing if there are none, and raises only if the copy fails |
| Scheduling.OffloadScheduler.RunningIsValid | offload_package/integration/scheduler_connector.py:238-246 | the engine's invariant implies everything the methods ask of their objects |
| Scheduling.OffloadScheduler.SyncStep | offload_package/integration/scheduler_connector.py:267-304 | syncing a request properly handed over is the engine's sync step and keeps the invariant |
| Scheduling.OffloadScheduler.OffloadStep | offload_package/integration/scheduler_connector.py:406-503 | an offload is the engine's offload step and keeps the invariant; it raises iff the fraction is outside [0, 1) |
| Scheduling.OffloadScheduler.PrefillDone | offload_package/integration/scheduler_connector.py:306-311 | prefill completion after a sync amounts to one offload step |
| Scheduling.OffloadScheduler.PromoteActive | offload_package/integration/scheduler_connector.py:343-356 | one promotion per active request, in order, where pages are truly freed, and none else; a failed copy ends it there and nothing else does |
| Scheduling.OffloadScheduler.PrefetchStep | offload_package/integration/manager.py:201-250 | the lag prefetch does what the orchestrator's does, and is a staging step or nothing |
| Scheduling.OffloadScheduler.FinishRequest | vllm-0.29.0/vllm/v1/core/single_type_kv_cache_manager.py:524-532 | cleanup and the return of the row's pages, last first, are the engine's finish step and keep the invariant |
| EngineLinks.SyncedIsSync | offload_package/integration/manager.py:61-111 | the orchestrator's sync of the block table is the engine's sync |
| EngineLinks.FetchedIsStage | offload_package/staging/pool.py:71-196 | a fetch that leaves well-shaped pages is the engine's staging step |
| EngineLinks.FreedIsFinish | vllm-0.29.0/vllm/v1/core/block_pool.py:728-761 | dropping one reference per row entry, in any order, leaves the counts the engine's finish step asks for |
| EngineRuns.ReachesExtendsRun | offload_package/integration/scheduler_connector.py:248-388 | what is reachable from the end of a run is the end of a run |
| StoreEvents.StoreWorker.WaitForSave | offload_package/integration/worker_connector.py:389-410 | an event with blocks is queued |
| StoreEvents.StoreWorker.PollEvents | offload_package/integration/worker_connector.py:435-448 | the done prefix is popped; the watermark is its last event |
| StoreEvents.StoreWorker.GetFinished | offload_package/integration/worker_connector.py:412-433 | everything at or below the watermark is reported |
| StoreEvents.StoreWorker.BuildWorkerMeta | offload_package/integration/worker_connector.py:450-460 | reports are handed over once |
| StoreEvents.HarvestIsDonePrefix | offload_package/integration/worker_connector.py:425-448 | an event is reported only when it and all events queued before it are done |
| StoreEvents.HarvestStopsAtUndone | offload_package/integration/worker_connector.py:435-448 | what stays queued starts with an event that is not done |
| StoreEvents.Aggregate | offload_package/integration/metadata.py:48-59 | reports are added key by key, inputs unchanged |
| StoreEvents.MergeAnyOrder | offload_package/integration/metadata.py:48-59 | merging is commutative and associative |
| StoreProtocol.RunKeeps | offload_package/integration/scheduler_connector.py:530-553 | for every event reports under way, counted and owed add up to the number of workers, in every run |
| StoreProtocol.ReportIsExpected | offload_package/integration/scheduler_connector.py:533-538 | a report names only events still being counted and never overshoots |
| StoreProtocol.ProcessedOnceAfterAllWorkers | offload_package/integration/scheduler_connector.py:530-553 | no event is processed twice, and a processed one and all earlier ones are done on every worker |
| StoreProtocol.DrainedMeansProcessed | offload_package/integration/scheduler_connector.py:530-553 | when nothing is under way or owed, every event has been processed exactly once, and all blocks ever recorded are those of the events and those not flushed yet |
| StoreProtocol.RecordedInOneEvent | offload_package/integration/scheduler_connector.py:358-384 | the events' contents and the accumulator are, in order, all blocks ever recorded |
| StoreProtocol.EventsAreFinal | offload_package/integration/scheduler_connector.py:371-381 | a flushed event never changes |
| Lru.ScoreIsLastSelection | offload_package/scoring/lru_scorer.py:34-54 | after any history a score is the number of the last selection with the block since it was forgotten, or 0 |
| Lru.RecencyExactIff | offload_package/scoring/lru_scorer.py:49-72 | eviction follows recency after all histories of at most n selections iff n is at most 2^24 |
| Lru.LatestSelectionIsEvicted | offload_package/scoring/lru_scorer.py:49-72 | a history of 2^24 + 1 selections after which the block selected last is evicted first |
| Lru.EvictionFollowsHistory | offload_package/scoring/lru_scorer.py:56-72 | so after at most 2^24 selections no evicted block was selected later than a kept one |
| Lru.LRUScorer.NoteUsage | offload_package/scoring/lru_scorer.py:34-39 | one tick for all blocks of a selection |
| Lru.LRUScorer.Update | offload_package/scoring/lru_scorer.py:41-47 | unknown blocks start at tick 0 |
| Lru.LRUScorer.Forget | offload_package/scoring/lru_scorer.py:74-76 | the named blocks are unknown again |
| Lru.LRUScorer.SelectForEviction | offload_package/scoring/lru_scorer.py:56-72 | the oldest beyond the budget; raises on a negative budget and on unknown blocks |
| Norms.OffsetIsTwicePid | offload_package/offload/triton_score.py:44-75 | a program's output offset is twice its number, so each cell has one writer |
| Norms.PidRoundTrip | offload_package/offload/triton_score.py:44-75 | every layer, block and head is some program's cell |
| Norms.LanesSum | offload_package/offload/triton_score.py:58-69 | masked lanes sum to the channels they stand for |
| Norms.ScoreBlocksFused | offload_package/offload/triton_score.py:78-131 | programs run in any order leave each cell with its own K and V means |
| Norms.FusedEqualsPerLayer | offload_package/scoring/norm_kernel.py:35-57 | which are the per-layer form's values |
| Norms.MeanNormMeans | offload_package/scoring/norm_kernel.py:35-50 | a head's norm is the mean over its tokens of the root of the sum of their squared channels |

## Left out

- `maybe_offload`, the single-block copy and `on_block_full`: not on the engine's path; they would repeat the batched pass.
- `on_decode_step` and the compression controller: replaced by a trigger that may fire at any time.
- The scheduler's own CPU block pool and block-hash stamping: bookkeeping apart from the CPU slots; assumed to have room.
- Load events, `start_load_kv`, `flush_and_sync` and the runner fallback sync: load events are never put into the pending map.
- `RandomScorer`, sparse scorers, attention backends, CUDA streams and pinned memory: no functional specification, or a foreign runtime.
- Floating-point rounding, except for the float32 conversion of LRU ticks; separate K and V caches (scores are computed on combined pages).
- LRU entries of blocks that were never tracked: `note_usage` registers any block it is given, so the LRU map, unlike the paged-eviction map, may outlive requests.
- Allocation.BlockPool: order of the free queue and cached-block hashes are not modelled.
- Scheduling.OffloadScheduler.BuildConnectorMeta: the metadata object, load events and the early exits before an orchestrator exists are not modelled; the controller's answer per request is a parameter.
- Selection.CollectNeededBlockRefs: a selection that is not three-dimensional is ruled out by its type.
- Patching.PatchPagedKvIndices: row offsets are not negative, so index wrap-around from the back does not occur; where several pairs of one scatter name the same position, any of their values may win, as the source leaves open.
- StoreProtocol.DrainedMeansProcessed: says nothing about how long draining takes; GPU events that never finish are allowed.
