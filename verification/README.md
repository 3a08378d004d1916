# LMServe: the key/value block engine, verified

LMServe serves language models from a paged key/value cache. A block manager per device (GPU, host,
disk) hands out reference-counted blocks that are found again by the hash of the token prefix they
hold. A scheduler drives the three managers: it admits, extends, preempts and reorders requests, cuts
prompts into chunks, and plans the copies between devices. Around it are a protocol that moves blocks
from a prefill node to a decode node, and tensor-parallel layers. This project models that logic and
proves what it keeps over every run.

## How it is organised

- `Prelude`, `BlockPool`, `BlockManagerSpec`: the data, the allocator and the block manager as functions
  on values. The panics and asserts of the block manager and the scheduler are explicit outcomes, but for
  two reads of a block that a table names (`Lookup`, `BlockRange`): the invariant keeps those blocks in
  the pool.
- `BlockManagerInv`, `Allocation`, `Publication`, `PrefixCache`, `CacheRefresh`, `Regions`, `Release`,
  `Forgetting`, `BlockManagerRuns`: the invariant (reference-count conservation, agreement of the free list, block
  lists that spell their texts), each operation against it, and whole runs.
- `BlockManagerClass`: the block allocator and block manager as objects with loops and fields updated in
  place, proved against those functions.
- `Admission`, `Preemption`, `Reclaiming`, `Predicting`, `KvCopy`, `Dispatch`, `StagedCopy`: what the scheduler does
  with one task on its devices, and what the copies do to the caches.
- `Queues`, `SchedulerState`, `QueuePasses`, `Decoding`, `Reordering`, `Batches`, `BatchCaches`, `Updates`,
  `Lifecycle`, `Scheduling`: the passes over the queues, and the scheduler as an object whose public methods are the
  steps the engine takes under its lock. Every method keeps `Valid()`, so any interleaving of requests,
  transfers and iterations does.
- `Tiling`, `Iterations`, `Serving`: runs of iterations with any other work before and during each batch,
  the inputs of one sequence over such a run, and the text that a request is answered with.
- `Transfer`, `Delivery`, `Backup`, `Generation`, `TensorParallel`: the two-node protocol, what a triggered
  request finds of the blocks sent for it, the blocks of a backup until they are copied, output equality,
  sharded layers.
- `OneToken`, `TwoTokens`, `LostTask`, `ExhaustedAdmission`, `StaleEntry`, `Unpublished`, `LostBackup`: small
  states and runs in which a property fails.

## What the code does not do

Some properties one would expect fail; for each there is the input or state, and the condition under
which the property does hold.

- The assert against double frees lets an unowned block be freed again; safety rests on reference-count
  conservation (`BlockPool.DoubleFreeGoesUnnoticed`, `BlockManagerRuns.ReachableCounts`).
- Request reordering can drop a task from every queue, because preemption itself drops cached blocks
  that the reclaim prediction counted on. `LostTask.LoseATask` is a run of the scheduler that does so. A
  round loses its task if and only if the watermark check fails after every number of preemptions, with
  the counts of `Reclaiming.PreemptionExact`, all taken from the state before the round. The debug
  assertion after the pass would notice (`Reordering.CountCheck`).
- An accepted admission can exhaust the GPU, exactly when the cached prefix blocks that are free do not
  fit besides the required ones (`Admission.TryAllocAccounting`); `ExhaustedAdmission.AdmissionExhausts`
  reaches such a state. It never happens for texts whose whole blocks fit in the slack of the watermark.
- Refreshing the cached blocks of a sequence breaks its block list unless all its slots are filled whole
  blocks or there is nothing to add (`CacheRefresh.RefreshExact`). Pending tasks meet the condition.
- For an input cut at a block boundary the worker derives a length one block too long
  (`Dispatch.WorkerAgreement`). With a token budget of whole blocks that is the first input of every
  longer text (`Dispatch.CutAtBoundary`).
- A backup's source blocks lose their owner before they are copied. A block keeps the right state if and
  only if it is not handed out for other content in between (`Backup.SourceKept`); the new owner may then
  overwrite it (`Backup.GivenAwayLost`). `LostBackup.LoseBackup` is a run of the scheduler in which it does,
  and the disk publishes the wrong block (`LostBackup.WrongCopy`).
- A transferred block may never be found: reserving a block leaves the table entry of its old content
  behind, and activation does not replace an entry. A transferred hash is found if and only if it had no
  entry before or was found before (`Transfer.TriggerPublishesReceivedBlocks`, `Delivery.TriggerFills`);
  `StaleEntry.TransferNotFound` is a transfer between reachable nodes that is not.
- A block that an allocation completes is published, but not always found afterwards: giving a later block
  new content removes the entry of its old hash, even if that entry names another block by now. A completed
  chunk is found if and only if no block taken for a later chunk carried its hash before
  (`Publication.AllocPublishes`); `Unpublished.FirstChunkNotFound` is a run after which it is not.
- A request that forbids caching is backed up to the disk like any other. Once it is removed, none of its own
  hashes is found on any device (`Lifecycle.Remove`), but the commit of its backup publishes them on the disk
  (`LostBackup.CacheAnyway`). That is so exactly when a backup was planned (`StagedCopy.ReserveCopySafe`).
- A request for a session that is already pending panics, if it is to pend itself
  (`Scheduling.Scheduler.AddRequest`, `Scheduling.Scheduler.Pend`).
- Splitting generation over two nodes yields extra tokens for requests that are over after their first
  token (`Generation.DisaggregationPreservesOutput`).

## Conventions

- The hash of a prefix is the prefix itself, so hashing is injective and never the default hash of a
  block that is not full.
- Sequence and region ids are fresh and come as parameters, and so do arrival times, which do not decrease
  from one added request to the next. Session ids come from the client and need not be fresh.
- The scheduler's tasks have one sequence each. A sequence's status is the queue its task is in.
- The watermark is the exact fraction 97/100. Integers are unbounded.
- A method that returns `Panic` promises nothing about the state it leaves.

## Model

| member | source | states |
|---|---|---|
| BlockPool.NewPoolOk | runtime/src/llm_engine/block_manager.rs:69-80 | a new pool agrees with an empty set of owners |
| BlockPool.AllocBlockSafe | runtime/src/llm_engine/block_manager.rs:105-123 | `alloc_block` panics only on an empty free list; otherwise the block handed out had no owner, counts, statuses and free list agree with one more reference to it, and no other block changed |
| BlockPool.FreeBlockSafe | runtime/src/llm_engine/block_manager.rs:125-140 | freeing a reference that is really held never trips an assert, removes exactly that reference, and lists the block as free precisely when it was the last one |
| BlockPool.PinBlockSafe | runtime/src/llm_engine/block_manager.rs:142-157 | pinning never panics, adds one reference, and takes the block off the free list precisely when it had none |
| BlockPool.DoubleFreeGoesUnnoticed | runtime/src/llm_engine/block_manager.rs:125-140 | the double-free assert does not protect the pool: an unowned block can be freed again without a panic, and then no multiset of owners fits the pool |
| Allocation.AllocBlocksSafe | runtime/src/llm_engine/block_manager.rs:417-486 | for every sequence and every text that extends it: panics (exhaustion) exactly when the free list is shorter than the needed blocks, otherwise takes exactly that many, the block list spells the whole text, and no block of another owner changes |
| Publication.AllocPublishes | runtime/src/llm_engine/block_manager.rs:417-486 | the blocks taken are the first of the free list, in order; a chunk that became full, by topping up or in a fresh block, is found in its block unless a block taken for a later chunk carried its hash before; every other hash is found as before unless one of the blocks taken carried it |
| Unpublished.FirstChunkNotFound | runtime/src/llm_engine/block_manager.rs:450-476 | a legal run after which the block of a chunk carries its hash but the chunk is not found, because the same allocation removed its entry again |
| Allocation.UnfullIsPrivate | runtime/src/llm_engine/block_manager.rs:417-486 | the partial last block that `alloc_blocks` tops up belongs to no other sequence and to no region |
| PrefixCache.LookupSound | runtime/src/llm_engine/block_manager.rs:335-346 | a lookup returns only a full block whose tokens are the last chunk of the queried prefix, even with stale table entries |
| PrefixCache.HitsAreTheLongestRun | runtime/src/llm_engine/block_manager.rs:358-381 | a list is the result of the prefix query if and only if it is the longest run of consecutive hits |
| PrefixCache.RangeQueriesSplit | runtime/src/llm_engine/block_manager.rs:383-415 | splitting the prefix query at any hit boundary with the range query gives the same list and the same end offset |
| PrefixCache.InitPrefixSafe | runtime/src/llm_engine/block_manager.rs:488-510 | never panics; the sequence owns the longest cached run, counted as filled, and no content changed |
| PrefixCache.UpdatePrefixSafe | runtime/src/llm_engine/block_manager.rs:512-547 | from a list of whole filled blocks, a refresh never panics and appends the run of hits that follows, keeping every invariant |
| CacheRefresh.RefreshExact | runtime/src/llm_engine/block_manager.rs:512-547 | from any list: a refresh panics if and only if the rounded-up filled length passes the text, and the new list spells the text if and only if all slots were filled and (there are no further hits or the slots are whole blocks) |
| CacheRefresh.RefreshBreaksUnfilled | runtime/src/llm_engine/block_manager.rs:512-547 | a refresh right after any allocation leaves a list that does not spell its text |
| Regions.ReserveSafe | runtime/src/llm_engine/block_manager.rs:549-585 | panics exactly when the free list is shorter than the number of whole chunks; otherwise one unowned block per chunk, with its tokens and hash, and nothing in use changes |
| Regions.ActivateSafe | runtime/src/llm_engine/block_manager.rs:587-609 | never panics; a hash gains a table entry exactly when it was absent and wanted and one of the region's blocks carries it; all references are given back and the count is the number of wanted blocks |
| Regions.PinHashesSafe | runtime/src/llm_engine/block_manager.rs:611-635 | never panics; pins, in order, the longest prefix of the requested hashes that is cached |
| Regions.UnpinSafe | runtime/src/llm_engine/block_manager.rs:637-648 | never panics, gives all references of the region back, changes no content |
| Release.UpdateFilledSafe | runtime/src/llm_engine/block_manager.rs:650-657 | the assert fires exactly when the new filled length passes the slots of a mapped sequence |
| Release.ReleaseSafe | runtime/src/llm_engine/block_manager.rs:659-697 | never panics; the free list grows by exactly the solely owned blocks, every block another owner holds keeps its content |
| Forgetting.ForgetsExactly | runtime/src/llm_engine/block_manager.rs:659-697 | exactly the solely owned blocks past the filled length, or with `free_and_drop_cache` all solely owned ones, lose their content, and exactly the hashes that one of them carried are found no more; all other lookups are as before |
| Release.ClearCacheSafe | runtime/src/llm_engine/block_manager.rs:703-705 | emptying the table keeps all other invariants |
| BlockManagerRuns.StepSafe | runtime/src/llm_engine/block_manager.rs:417-706 | every operation keeps the invariant, and its only panic is exhaustion, which happens exactly when it demands more blocks than are free |
| BlockManagerRuns.RunSafe | runtime/src/llm_engine/block_manager.rs:417-706 | any legal run from a good state ends in a good state or in exhaustion, never in another panic |
| BlockManagerRuns.ReachableCounts | runtime/src/llm_engine/block_manager.rs:105-157 | in every reachable state each reference count is the number of occurrences in all block lists and regions, and the free list holds exactly the blocks with status Free, which are exactly those with count 0, each once |
| BlockManagerRuns.ReachableSpelling | runtime/src/llm_engine/block_manager.rs:417-547 | in every reachable state the distinct blocks of a sequence hold, in order, the first `slots` tokens of its text, ceil(slots / block size) blocks, filled at most slots |
| BlockManagerRuns.StepKeepsShared | runtime/src/llm_engine/block_manager.rs:417-697 | no operation changes the tokens or hash of a block with two or more owners |
| BlockManagerRuns.StepKeepsRegion | runtime/src/llm_engine/block_manager.rs:549-648 | no operation but its own closing touches a region: same list, tokens and hashes, all blocks still in use |
| BlockManagerRuns.RunKeepsRegion | runtime/src/llm_engine/block_manager.rs:549-648 | the same over every run |
| BlockManagerRuns.QuiescentNoLeak | runtime/src/llm_engine/block_manager.rs:587-697 | over any run, once nothing is mapped and no region is open, every block is on the free list, once |
| BlockManagerClass.BlockAllocator.AllocBlock | runtime/src/llm_engine/block_manager.rs:105-123 | the object's fields change as the specification says, panics included |
| BlockManagerClass.BlockAllocator.FreeBlock | runtime/src/llm_engine/block_manager.rs:125-140 | the object's fields change as the specification says, panics included |
| BlockManagerClass.BlockAllocator.AllocBlockById | runtime/src/llm_engine/block_manager.rs:142-157 | the object's fields change as the specification says, panics included |
| BlockManagerClass.BlockManager.LookupBlockId | runtime/src/llm_engine/block_manager.rs:335-346 | reads what the specification of lookup says |
| BlockManagerClass.BlockManager.GetPrefixCacheBlocks | runtime/src/llm_engine/block_manager.rs:358-381 | the loop computes the run of hits |
| BlockManagerClass.BlockManager.GetPrefixCacheBlocksRange | runtime/src/llm_engine/block_manager.rs:383-415 | the loop computes the run of hits in the range, or panics on an inverted range |
| BlockManagerClass.BlockManager.AllocBlocks | runtime/src/llm_engine/block_manager.rs:417-486 | the in-place loop refines the specification of which safety, content and publication are proved above |
| BlockManagerClass.BlockManager.InitPrefixCacheBlocks | runtime/src/llm_engine/block_manager.rs:488-510 | refines the specification |
| BlockManagerClass.BlockManager.UpdatePrefixCacheBlocks | runtime/src/llm_engine/block_manager.rs:512-547 | refines the specification |
| BlockManagerClass.BlockManager.ReserveBlocks | runtime/src/llm_engine/block_manager.rs:549-585 | refines the specification |
| BlockManagerClass.BlockManager.ActivateReservedBlocks | runtime/src/llm_engine/block_manager.rs:587-609 | refines the specification |
| BlockManagerClass.BlockManager.PinBlocksByHashes | runtime/src/llm_engine/block_manager.rs:611-635 | refines the specification |
| BlockManagerClass.BlockManager.UnpinBlocks | runtime/src/llm_engine/block_manager.rs:637-648 | refines the specification |
| BlockManagerClass.BlockManager.UpdateFilledLen | runtime/src/llm_engine/block_manager.rs:650-657 | refines the specification |
| BlockManagerClass.BlockManager.Free | runtime/src/llm_engine/block_manager.rs:659-697 | refines the specification of `free` and `free_and_drop_cache` |
| BlockManagerClass.BlockManager.ClearCache | runtime/src/llm_engine/block_manager.rs:703-705 | refines the specification |
| Admission.RequiredSafe | runtime/src/llm_engine/block_manager.rs:281-295 | the number of required blocks never underflows, and is what the text needs minus what is owned or cached |
| Admission.TryExtendSafe | runtime/src/llm_engine/scheduler.rs:278-299 | extending a mapped sequence never panics; it succeeds exactly when the check passes and then takes exactly the checked blocks |
| Admission.TryAllocAccounting | runtime/src/llm_engine/scheduler.rs:254-276 | first admission shrinks the free list by exactly the required blocks plus the cached prefix blocks that were free; it panics exactly when the check passes but these do not fit |
| Admission.SlackPreventsExhaustion | runtime/src/llm_engine/scheduler.rs:254-276 | admission cannot panic while the watermark leaves room for re-pinning the cached prefix |
| Preemption.ReleaseKeepsReclaimable | runtime/src/llm_engine/scheduler.rs:243-252 | preempting one task never lowers what the prediction counts for the others |
| Preemption.PreemptionKeepsHits | runtime/src/llm_engine/scheduler.rs:349-355 | preempting a task that is not in the middle of computing a block another text shares leaves the cached prefix of that text as it is |
| Preemption.PreemptUntilSafe | runtime/src/llm_engine/scheduler.rs:697-716 | the preemption loop panics only by exhaustion and touches only the victims it preempted and the admitted task |
| Preemption.ReclaimSound | runtime/src/llm_engine/scheduler.rs:683-716 | if the reclaim prediction accepts a task and no victim is computing a full block it would share, then preempting the victims admits the task; the only panic is exhaustion, and there is none if the slack of the watermark has room to re-pin the cached prefix |
| Preemption.RoomyPreempts | runtime/src/llm_engine/scheduler.rs:694-716 | for a text whose whole blocks fit in the slack of the watermark neither admission nor any preemption for it panics |
| Reclaiming.ReleaseAllExactly | runtime/src/llm_engine/block_manager.rs:659-687 | releasing a group of sequences, told from the state before: each block loses their references, is dropped from the cache exactly if none are left and its last owner among them had not filled it, and a hash is no longer found exactly if a block with it is dropped |
| Reclaiming.PreemptionExact | runtime/src/llm_engine/scheduler.rs:694-716 | from the state before: the task is left out, and so lost, if and only if the watermark check passes after no number of preemptions; the loop panics if and only if, when the check first passes, the free blocks do not suffice for the required ones and the prefix to re-pin |
| Predicting.ReclaimableIs | runtime/src/llm_engine/scheduler.rs:243-252 | the predicted number is the number of blocks with one owner that one of the promoted tasks lists, each counted once |
| Predicting.PromisingIs | runtime/src/llm_engine/scheduler.rs:683-693 | the prediction is the watermark check for the required blocks less that number |
| LostTask.RoundLoses | runtime/src/llm_engine/scheduler.rs:683-716 | a state in which a round of the pass loses its task: refused, predicted to fit, and fitting after no preemption |
| LostTask.LoseATask | runtime/src/llm_engine/scheduler.rs:654-740 | a run of the scheduler (add, reserve, pend, add, schedule, update, trigger, schedule) reaches that state and ends valid, with the unanswered task in no queue |
| LostTask.UncomputedHit | runtime/src/llm_engine/block_manager.rs:466-510 | a cache hit can be uncomputed: in a reachable state a sequence would count two blocks as filled of which their only other owner has computed nothing |
| ExhaustedAdmission.AdmissionExhausts | runtime/src/llm_engine/scheduler.rs:254-276 | a reachable device on which the check for a sequence passes and its admission panics by exhaustion |
| KvCopy.CopyBlocks | runtime/worker/llm_worker/kv_worker.py:229-247 | the nested copy loops, in place, compute the copy of all entries in order |
| KvCopy.ApplyDelivers | runtime/worker/llm_worker/kv_worker.py:197-247 | copying to distinct blocks puts source block i into destination block i and changes nothing else |
| KvCopy.TruncateDescriptors | runtime/worker/llm_worker/kv_worker.py:386-387 | the truncation keeps a prefix, no longer than the local blocks |
| Dispatch.BlockRangeSpec | runtime/src/llm_engine/block_manager.rs:241-273 | what a block range query returns on a list that spells its text |
| Dispatch.FetchPlan | runtime/src/llm_engine/scheduler.rs:405-451 | the host-to-GPU plan exists exactly when the host is ahead, raises the GPU to the host's filled length and covers it |
| Dispatch.WriteThroughPlan | runtime/src/llm_engine/scheduler.rs:405-451 | the GPU-to-host plan exists exactly when a whole block more fits; the host's filled length stays a multiple of the block size, within its slots and not ahead of the GPU |
| Dispatch.CopyPlanCorrect | runtime/src/llm_engine/scheduler.rs:405-451 | in both directions: positions right below the filled lengths on both devices become right below the destination's new filled length, and no block outside the destination's list is touched |
| StagedCopy.ReserveCopySafe | runtime/src/llm_engine/scheduler.rs:357-403 | a plan exists exactly when the source has whole filled blocks beyond those of the destination and as many blocks are free there; it covers all of them in order, each destination block gets the hash of its chunk and the tokens and hash of its source; it never exhausts the destination and touches nothing in use |
| Dispatch.DispatchOneSafe | runtime/src/llm_engine/scheduler.rs:467-531 | dispatching a sequence never panics; its input is the stretch from the larger filled length (or the last token) cut by the budget, and the host stays block-aligned and not ahead |
| Dispatch.NextInputFollows | runtime/src/llm_engine/scheduler.rs:467-531 | the next input of a dispatched sequence starts where the last one ended, with nothing to fetch |
| Dispatch.SliceKeepsCachesRight | runtime/src/llm_engine/scheduler.rs:467-531 | fetch, compute, write through: caches that are right up to their filled lengths are right up to the new ones |
| BatchCaches.CopiesExactly | runtime/src/llm_engine/scheduler.rs:405-541 | the fetches of a batch are exactly the pairs of host and GPU blocks, for each input, from the first one the GPU has not filled up to the one at the host's filled length; its write-throughs are exactly the pairs of whole blocks that the host lacks below the end of the input and has slots for |
| BatchCaches.BatchKeepsCachesRight | runtime/src/llm_engine/engine.rs:330-350 | all fetches, then the worker, then all write-throughs: if no two active sequences share a block that one of them has still to fill, caches that are right for all active sequences stay right up to all new filled lengths, on both devices |
| BatchCaches.DispatchKeepsCachesRight | runtime/src/llm_engine/scheduler.rs:453-541 | the same for every batch that dispatch builds in a valid scheduler |
| Dispatch.WorkerAgreement | runtime/worker/llm_worker/model_worker.py:35-43 | batch and worker agree on the length of an input if and only if it is complete or ends inside a block; a cut at a block boundary makes the worker see a whole block too much |
| Dispatch.CutAtBoundary | runtime/worker/llm_worker/model_worker.py:402-408 | for every block size, every longer text and every token budget of whole blocks, the first input is cut at a block boundary and the worker's length is a block too long |
| Batches.BuildBatch | runtime/src/llm_engine/scheduler.rs:453-541 | never panics and computes the recursive specification of the loop; at most the batch size, at most the token budget; the first active tasks have one input each until a limit is reached, only the last one is cut and only by the budget, each starts where its sequence's last one ended since admission; its copies are, for each input, what the host has more before and the whole blocks that the host lacks after, and nothing else; exactly its sequences count as filled further |
| Batches.BatchAgreesWithWorker | runtime/worker/llm_worker/model_worker.py:402-408 | for every input of a batch the worker's length is right exactly if it is complete or ends inside a block, so for all but the last it is |
| Queues.InsertSorted | runtime/src/llm_engine/scheduler.rs:61-72 | inserts in front of the first newer task, and keeps a sorted queue sorted |
| QueuePasses.ExtendTask | runtime/src/llm_engine/scheduler.rs:278-299 | extending a task on GPU and host never panics, changes only its slots, and success means slots for its whole text |
| QueuePasses.ExtendActive | runtime/src/llm_engine/scheduler.rs:543-565 | the decode loop computes its recursive specification on the GPU, never panics, loses no task, keeps the waiting queue sorted; the surviving tasks are a prefix of the old queue, so every task moved out was behind every task kept, all have slots for their whole text; exactly the others lose their progress, and exactly the survivors are extended on the host |
| Decoding.DecodeRounds | runtime/src/llm_engine/scheduler.rs:543-565 | the decode loop is a sequence of rounds: the first task left is extended if its blocks are free, and only if they are not, the last one goes, giving its blocks back and leaving what it filled in the cache |
| Decoding.NoneGoes | runtime/src/llm_engine/scheduler.rs:543-565 | the decode loop keeps all active tasks if and only if the free blocks are enough for all of them together |
| Decoding.HostExtends | runtime/src/llm_engine/scheduler.rs:278-299 | on the host a task gets slots for its whole text exactly if its blocks are free, and otherwise nothing is done |
| QueuePasses.AdmitInOrder | runtime/src/llm_engine/scheduler.rs:570-580 | without reordering the first k waiting tasks are admitted behind the active ones, in order, exactly these are extended on the host, and the next one is refused; it panics exactly when the admissions do, by exhaustion for the next task in the state returned, and never while the whole blocks of each text fit in the slack of the watermark |
| Reordering.SplitNewer | runtime/src/llm_engine/scheduler.rs:666-676 | collects exactly the newer tasks of a sorted queue |
| Reordering.PreemptFor | runtime/src/llm_engine/scheduler.rs:697-716 | the in-place preemption loop computes the preemption function on the GPU, keeps every task, and puts the preempted ones in their places among the waiting |
| Reordering.ReorderFirst | runtime/src/llm_engine/scheduler.rs:658-723 | one round does what the source prescribes for its case, keeps both queues sorted, every task but a lost one, and lowers the number of waiting tasks plus that of active tasks newer than the one looked at; it loses its task if and only if the check passes after no number of preemptions, told from the state before, and only if a preempted task was computing a full block it shares |
| Reordering.Reorder | runtime/src/llm_engine/scheduler.rs:654-740 | the pass terminates after a trace of such rounds, both queues stay sorted by arrival, every task is in one of them but for the lost ones, which are exactly those of the losing rounds; exactly the tasks that the rounds preempt lose their progress, and exactly those that they admit are extended on the host; none is lost if no active task is computing a full block that an older task shares; it panics only if a round of the trace does, and never while the whole blocks of each text fit in the slack of the watermark |
| Reordering.CountCheck | runtime/src/llm_engine/scheduler.rs:727-732 | the source's count check after the pass holds if and only if no task was lost |
| Updates.TakeOutputs | runtime/src/llm_engine/scheduler.rs:607-652 | an output token is appended exactly to the sequences whose input was not cut; exactly those tasks leave whose output is an end token that is not to be ignored or reaches the output limit or the maximal length, and the others keep their order |
| Iterations.Do | runtime/src/llm_engine/engine.rs:178-439 | whatever another request does under the lock, the active tasks, their progress and the running batch stay as they are, no sequence changes, and only those of finished tasks go; it panics only by exhaustion or for a duplicate or unknown session |
| Iterations.Iterate | runtime/src/llm_engine/engine.rs:322-357 | an iteration of the scheduler is a turn of a run: `schedule`, any calls of other requests during the batch, then `update` |
| Iterations.Serve | runtime/src/llm_engine/engine.rs:322-392 | every scheduler with any calls of other requests before and during every batch makes a run of such turns, one for each iteration |
| Tiling.ChunksTile | runtime/src/llm_engine/scheduler.rs:467-532 | over every run of iterations in which a task is active and not preempted (in or out of the single batches, with or without older tasks waiting), the inputs of its sequence are consecutive stretches of its text and together spell it from where the run found the sequence to where it left it, and an output is taken exactly in the turns whose input reaches the full length |
| Serving.FinishedText | runtime/src/llm_engine/scheduler.rs:607-652 | in every run whose worker computes a model, whatever the sequence is batched with, however it is cut, preempted or reordered and whatever other requests do: when it finishes, its text is the prompt and what the generation loop computes for it alone, and before that a proper prefix of it |
| Serving.Respond | runtime/src/llm_engine/engine.rs:322-392 | the engine with a model as its worker answers every sequence that is new at the start and finishes in one of the rounds so |
| Updates.ChainSpellsText | runtime/src/llm_engine/scheduler.rs:484-509 | the tokens of inputs that tile are, one after the other, exactly the text between the first start and the last end |
| Lifecycle.PlanStage | runtime/src/llm_engine/scheduler.rs:157-181 | never panics; on host and disk the sequence owns the longest run of its chunks cached there before, all filled; a staging plan is made exactly when others wait, the run on the disk is at least 2048 tokens longer and the host has room for the missing blocks, and it covers exactly these |
| Lifecycle.TriggerDevice | runtime/src/llm_engine/scheduler.rs:197-217 | triggering never panics on a pending sequence, closes the region, and leaves a list of whole filled blocks |
| Lifecycle.Remove | runtime/src/llm_engine/scheduler.rs:742-754 | backup and removal never panic and give back the blocks on all three devices; a backup plan exists exactly when the host has whole blocks more and the disk has room, pairs blocks of the same content and keeps its own; each device forgets the solely owned blocks past the filled length, or all solely owned ones if the sequence forbids caching, and finds everything else as before (what becomes of the sources is told by Backup.SourceKept) |
| Lifecycle.QuietDevices | runtime/src/llm_engine/scheduler.rs:742-754 | with no task and no region left, all blocks of all three devices are free |
| Scheduling.PlanBatch | runtime/src/llm_engine/scheduler.rs:543-605 | the passes put together keep all tables in agreement; exhaustion is the only panic; batch, copies, queues, progress and host as stated for Schedule below |
| Scheduling.Scheduler.constructor | runtime/src/llm_engine/scheduler.rs:106-131 | a new scheduler is valid and empty |
| Scheduling.Scheduler.AddRequest | runtime/src/llm_engine/engine.rs:178-243 | takes over the longest cached runs on host and disk, and plans to stage exactly under the condition of PlanStage; panics exactly when it does and the session is already pending; otherwise keeps the scheduler valid, and the task waits behind all others, or pends on the exact plan |
| Scheduling.Scheduler.ReserveBlocks | runtime/src/llm_engine/engine.rs:245-272 | panics exactly when the host has too few free blocks; otherwise the region has the hashes of all whole chunks, and the scheduler stays valid |
| Scheduling.Scheduler.Pend | runtime/src/llm_engine/scheduler.rs:190-195 | panics exactly when the session is already pending; otherwise the task pends under its session and the scheduler stays valid |
| Scheduling.Scheduler.TriggerRequest | runtime/src/llm_engine/engine.rs:294-307 | panics exactly for a session that is not pending; otherwise the task is in its place among the waiting ones, with its cached blocks |
| Scheduling.Scheduler.PinBlocks | runtime/src/llm_engine/engine.rs:414-426 | pins the longest cached prefix of the hashes and keeps the scheduler valid |
| Scheduling.Scheduler.UnpinBlocks | runtime/src/llm_engine/engine.rs:436-439 | closes the region, changes no content, keeps the scheduler valid |
| Scheduling.Scheduler.CommitBackup | runtime/src/llm_engine/scheduler.rs:328-331 | publishes the committed blocks on the disk and keeps the scheduler valid |
| Scheduling.Scheduler.Schedule | runtime/src/llm_engine/scheduler.rs:543-605 | is the decode loop, then admission, then dispatch, and keeps the scheduler valid; batch bounds, greed and copies as in BuildBatch; exactly the tasks that the two passes preempt lose their progress, all others go on where they were; exactly the kept and the admitted tasks are extended on the host; tasks are conserved but for those of the losing rounds, none is lost without reordering or if no active task has to compute a full block that an older one shares; it panics only if its admissions do, by exhaustion, and never while the whole blocks of each text fit in the slack of the watermark |
| Scheduling.Scheduler.Update | runtime/src/llm_engine/scheduler.rs:607-652 | keeps the scheduler valid; outputs, finished tasks told by their outputs and limits, and remaining tasks as in TakeOutputs |
| Scheduling.Scheduler.Retire | runtime/src/llm_engine/scheduler.rs:742-754 | keeps the scheduler valid without any panic; the first finished task leaves all tables, with backup plan and caches as stated for Remove |
| Scheduling.Scheduler.ClearCaches | runtime/src/llm_engine/scheduler.rs:756-760 | forgets all published hashes and nothing else |
| Scheduling.Scheduler.NoLeak | runtime/src/llm_engine/scheduler.rs:742-754 | in any valid state with empty queues and closed regions, all blocks of all three devices are free |
| Transfer.ActionSafe | runtime/src/router.rs:264-322 | every protocol step, the push block by block, interleaved with any other operation and any write of an owner on either node, keeps the system in order; the only panic is exhaustion of a node |
| Transfer.TriggerPublishesReceivedBlocks | runtime/src/router.rs:264-322 | in any run, at a trigger the transferred hashes are a prefix of the reserved ones, exactly they are activated, all their blocks and those of newly published entries hold the content of their own hash; each transferred hash is found then if and only if it had no entry before or was found before |
| Delivery.TriggerFills | runtime/src/llm_engine/scheduler.rs:197-219 | triggering a sequence fills it up to the run of chunks that are found; all transferred chunks count if and only if each of them behind those the sequence has had no entry before or was found before |
| StaleEntry.TransferNotFound | runtime/src/llm_engine/block_manager.rs:549-609 | a transfer between reachable nodes that delivers and activates its block, which then is not found, so that its request counts nothing as filled |
| Transfer.PushDelivers | runtime/worker/llm_worker/kv_worker.py:375-415 | every block of the push can be delivered, from source block i to destination block i, which carries the same hash and then holds its content |
| Backup.SourceKept | runtime/src/llm_engine/engine.rs:353-392 | over every history of host operations and writes of owners after a backup was planned and its task removed, a source block holds the state of its hash all the time if and only if it is never handed out for other content |
| Backup.GivenAwayLost | runtime/src/llm_engine/engine.rs:353-392 | a source block handed out for other content has an owner that may overwrite it |
| Backup.SourceLost | runtime/src/llm_engine/engine.rs:353-392 | a source block without an owner at the head of the free list is handed out to a new sequence, whose first write destroys what the copy was to find |
| LostBackup.LoseBackup | runtime/src/llm_engine/engine.rs:322-392 | a run of the scheduler: a request finishes, its backup is planned and it is removed, the next batch writes another text to the source block, and the commit publishes the hash of the first on the disk |
| LostBackup.SourceAtRisk | runtime/src/llm_engine/scheduler.rs:183-188 | in that run, between planning and copy, the source holds its state and is about to be given away |
| LostBackup.CacheAnyway | runtime/src/llm_engine/engine.rs:353-392 | a run of the scheduler after which the block of a request that forbids caching is found on the disk, though on no other device |
| Generation.Generate | runtime/src/llm_engine/scheduler.rs:607-652 | the generation loop computes the token list of the request |
| Generation.MonolithicExactly | runtime/src/llm_engine/scheduler.rs:607-652 | a token list is what the loop computes if and only if each token is the next one of the text before it, no token but the last is an end token that counts and before the last both limits leave room, and the last is such a token or reaches a limit |
| Generation.MonolithicLimits | runtime/src/llm_engine/scheduler.rs:607-652 | the output is never empty, keeps both limits as far as one token allows, has no end token before its end unless they are ignored, and if it is shorter than both limits it ends with an end token that is not ignored |
| Generation.DisaggregationPreservesOutput | runtime/src/router.rs:377-408 | for every deterministic next-token function, splitting off the first token preserves the output if and only if the request is not over after its first token; otherwise it appends tokens |
| TensorParallel.Divide | runtime/worker/llm_worker/models/parallel/utils.py:27-37 | defined exactly for world sizes that divide the dimension, and then the parts make up the whole |
| TensorParallel.RangesPartition | runtime/worker/llm_worker/models/parallel/utils.py:69-75 | every index below the whole lies in exactly one rank's range, and no other index in any |
| TensorParallel.EmbedShard | runtime/worker/llm_worker/models/parallel/layers.py:136-154 | the in-place masking computes the rank's row or zeros |
| TensorParallel.VocabParallelEmbedding | runtime/worker/llm_worker/models/parallel/layers.py:136-157 | summing the masked shards gives the full lookup for every token of the vocabulary, and zeros outside it |
| TensorParallel.AffineSlice | runtime/worker/llm_worker/models/parallel/layers.py:301-305 | a rank of a column-parallel layer, with its part of weight and bias, computes its slice of the full output |
| TensorParallel.ColumnParallelLinear | runtime/worker/llm_worker/models/parallel/layers.py:301-311 | gathering the outputs of all ranks of a column-parallel layer gives the output of the whole layer |
| TensorParallel.ParallelMlpIsMlp | runtime/worker/llm_worker/models/parallel/layers.py:391-405 | for every world size that divides the intermediate dimension and every activation, column-parallel, gating and row-parallel give the unsharded feed-forward block |

## Left out

- Tasks of several sequences in the scheduler: extension can stop midway and still report success, so per-sequence claims differ; the block manager results cover any number of sequences.
- Transfer.ActionSafe: takes the pinned source blocks to be computed; the block manager publishes hashes before the state is computed, so no claim is made that every cache hit is computed.
- BatchCaches.BatchKeepsCachesRight: is about sequences that share no block one of them has still to fill, and what the worker computes is an assumption; without the first the claim is false, because a sequence that hits a published but uncomputed block counts it as filled (`LostTask.UncomputedHit`).
- Serving.FinishedText: takes the next token as a function of the text; that a hit on an uncomputed block makes the worker compute it from the wrong state is outside it.
- Collisions of the hash function and the warning about them, `check_hash_collision`.
- Widths of machine integers and the rounding of the watermark in single precision.
- Liveness and head-of-line progress: a task that cannot be extended keeps its GPU blocks while it waits.
- `get_stats`, usage ratios, log probabilities, output words, latencies, logging.
- Locks, the background task manager, gRPC, NATS, process launching, command line and configuration.
- CUDA streams and events, the copy engine's descriptors, attention kernels, sampling: only "copy block i to block j" and a deterministic next-token function remain.
- Node selection in the router, and failure of a node or a transfer.
- `pull_kv`, rotary embedding, activation formulas, cross entropy, weight loading of the parallel layers and the bias of the row-parallel one.
- The order in which the worker sorts prefill and decode inputs, and its index tensors beyond the length arithmetic.
