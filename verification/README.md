# Verification of the inference engine

A Dafny model of a continuous-batching inference engine and proofs about it. The engine queues requests, admits
them first come first served, batches their prefill and decode tokens over one shared pool of key/value blocks,
shares cached prompt prefixes by reference counting, evicts the least recently used ones, and preempts and
recomputes sequences when blocks run out. Modelled are the scheduler, the block manager and its allocator, the cached, the
paged and the batched forward pass, the sampler's greedy branch, speculative decoding, the contiguous and the paged
single-sequence caches, the attention and argmax kernels beside their CPU twins, tensor-parallel sharding, int8
quantization and the server's token fan-out.

`dafny verify dfyconfig.toml` checks the whole project.

## How it is built

- `Network` keeps the row-wise operators of the transformer abstract and defines the reference forward pass and plain
  greedy decoding. Everything else is measured against these.
- `BlockAllocator`, `PrefixCache`, `BlockPool`, `BlockManager` and `Recency` are the pool. Every manager method is proved to compute
  a function of the pool state, and the promises are lemmas about these functions. `PoolRuns` has them for all runs.
- `ForwardCached`, `PagedKVCache`, `ForwardPaged`, `RowContents`, `Lanes` and `ForwardBatch` are the forward passes, with
  the layer loop, positions, offsets, writes, gathers and last rows spelled out.
- `Scheduler`, `SchedulerInvariant`, `EngineContent`, `EngineForward`, `StepRelation`, `Progress`, `Stalls` and `Engine` are the engine:
  its functions, what every reachable state satisfies, what its rows and outputs mean, and the class itself.
  `EngineRuns` states the main theorem over all runs, `StalledEngine` two reachable stalls, `HashCollisions`, `Recall` and
  `WrongOutput` the price of a collision, `Service` and `ServiceRuns` the server on top.
- `Attention`, `Reductions`, `Linear`, `TensorParallel` and `Quantization` are the kernels, over exact reals. The exponential is a
  parameter of which only positivity and exp(x + y) = exp(x) exp(y) are used.

The invariant of the engine has two parts. The bookkeeping holds without any condition. The meaning of rows and outputs holds
as long as no two token prefixes that have ever served as parents in the prefix cache, the empty one included, share a
chain hash; the ghost set `seen` collects those prefixes.

## Where the code and its own words disagree

- src/kvcache/block_manager.cpp:127-129 says correctness does not depend on the hash being free of collisions. It does for
  parents. `SameEntryIffCollision` says, for every cache, exactly when the entry of one prompt serves another one, and
  `SharedByCollision` carries that through registering and sharing. `CollisionMisleads` carries it to the answers: any two
  different runs of full blocks with one chain hash make some network and some run of the engine answer a greedy request
  with a token it took from another client's prompt. `CollisionsExist` and `EnoughPrefixes` show that every 64-bit hash has
  such runs for any vocabulary of two tokens or more, and `EveryHashMisleads` is the run. In the other direction, as
  long as no parents collide every greedy answer is right (`Drive`).
- include/engine/block_manager.hpp:73-74 says registered blocks stay live until the cache is cleared. They may be evicted:
  `EvictingRun` is a run of the manager that loses one, and `AllocateEvicts` and `ReserveEvicts` say exactly when entries
  leave. The engine itself never evicts (`BatchReserves`, `StepNeverEvicts`), as it never reserves more than is free.
- So with prefix caching on eviction never helps the scheduler: admission and batching count the free list alone, and a
  request that fits the empty pool can wait for ever. `StalledRun` and `StarvedRun` are runs of the engine in which a
  queued and a running request do. `StepStalls` says, for every state, exactly when a step emits nothing, and
  `EmptyStepIsLast` that such a step is the last to change anything. `StepProgresses` gives a condition on the requests
  under which a step is not one of those.

## Model

| member | source | states |
|---|---|---|
| EngineRuns.Drive | src/engine/engine.cpp:40-202 | for every sequence of arriving requests and steps, failed steps included, each greedy output is a prefix of that request's own plain greedy decoding and is all of it exactly when the request has finished, unless two parent prefixes collide; without caching there is no condition |
| EngineRuns.Drain | src/engine/engine.cpp:53-160 | without caching and with requests that fit the empty pool, stepping until idle finishes every request within as many steps as tokens were still to come, and throws only for a prompt outside the vocabulary |
| EngineRuns.Apply | src/engine/engine.cpp:40-160 | one event of a run keeps the engine invariant, adds at most the accepted request, and without caching never makes a prefix a parent |
| EngineContents.OutputIsSolo | src/engine/engine.cpp:53-160 | in every state that satisfies the invariants a greedy output is a prefix of the solo decoding, and equals it if and only if the status is Finished |
| EngineContents.RunIsSolo | src/engine/engine.cpp:132-148 | a greedy run whose proper prefixes do not stop is a prefix of the solo decoding, and the whole of it if and only if it stops |
| EngineContents.SoloLength | src/engine/engine.cpp:137-140 | the solo decoding stops at the returned length and at no smaller one, where stopping is what the next two rows say |
| EngineContents.SoloIsCut | src/engine/engine.cpp:138-140 | with a non-negative eos_id that occurs among the first max(1, max_tokens) greedy tokens, the solo decoding ends with its first occurrence; otherwise it is all of them |
| EngineContents.FinishedExactlyWhen | src/engine/engine.cpp:138-143 | in every reachable state, of stochastic requests too: an output has no EOS before its last token and at most max(1, max_tokens) tokens, and its request has finished if and only if it has that many or ends in EOS |
| Engines.Engine.constructor | src/engine/engine.cpp:28-38 | a fresh engine satisfies the whole invariant and is in exactly the empty state, with the whole pool free, lowest block first |
| Engines.Engine.AddRequest | src/engine/engine.cpp:40-51 | an empty prompt throws and changes nothing; otherwise a fresh sequence without blocks gets the next id, which joins the end of the queue, and nothing else changes |
| Engines.Engine.AdmitWaiting | src/engine/engine.cpp:57-68 | the admission loop computes the admission function of the state |
| Engines.Engine.ShareBlocks | src/engine/engine.cpp:90-99 | sharing for one running sequence computes the sharing function, capped to leave one token |
| Engines.Engine.AssembleBatch | src/engine/engine.cpp:79-119 | one pass over the running sequences computes the assembly function, budget and batch included |
| Engines.Engine.PreemptYoungest | src/engine/engine.cpp:162-178 | preempts the last running sequence that holds blocks, or reports that there is none and changes nothing |
| Engines.Engine.SelectBatch | src/engine/engine.cpp:78-123 | the retry loop computes the selection function and keeps the scheduler invariant |
| Engines.Engine.ForwardItems | src/engine/engine.cpp:128-128 | the chosen batch never exhausts the pool; it throws exactly for a token outside the vocabulary, and otherwise every row is the last logits row of the forward over the rows the item's table held, which without parent collisions is that of the item's own whole context |
| Engines.Engine.TakeToken | src/engine/engine.cpp:133-148 | one sequence takes its token: it finishes and gives up its blocks if and only if the token is a non-negative eos_id or the output has reached max_tokens, else a prefill is registered |
| Engines.Engine.TakeTokens | src/engine/engine.cpp:130-148 | all batched sequences take their tokens in batch order, greedy ones the first maximum of their row |
| Engines.Engine.RetireFinished | src/engine/engine.cpp:150-159 | exactly the finished sequences leave the running list, in order |
| Engines.Engine.Step | src/engine/engine.cpp:53-160 | one step from any valid state yields a valid state and one of the outcomes of the step relation, and every greedy token is the first maximum of what the cached rows in the store yield, whatever they are |
| Engines.Engine.Generate | src/engine/engine.cpp:188-202 | terminates; the result is the finished output of the new request and, if greedy, its solo decoding; it can only throw for an empty prompt or a token outside the vocabulary |
| Engines.QueuedKeeps | src/engine/engine.cpp:40-51 | queueing a non-empty prompt keeps the scheduler invariant and the meaning of every row |
| SchedulerInvariants.AdmitKeeps | src/engine/engine.cpp:57-68 | admission keeps the invariant |
| SchedulerInvariants.AdmitIsFcfs | src/engine/engine.cpp:57-68 | admission takes exactly the longest prefix of the queue whose members each find a batch slot and room in the free list, and changes nothing else |
| SchedulerInvariants.ShareForKeeps | src/engine/engine.cpp:90-99 | sharing keeps the invariant, in particular block-aligned lengths below the context and writable blocks with one holder |
| SchedulerInvariants.ShareForShares | src/engine/engine.cpp:90-99 | a fresh running sequence gets exactly the longest registered run of its context, and at least one token is left to forward |
| Schedulers.ShareCapIsLargest | src/engine/engine.cpp:94-94 | the tokens that may be shared are the largest whole number of blocks that leaves at least one token |
| SchedulerInvariants.TakeRegisters | src/engine/engine.cpp:144-147 | after a prefill that does not finish, every full block of its context is found in the cache |
| Progress.DecodesRegisterNothing | src/engine/engine.cpp:144-147 | a sequence that was decoding leaves the cache alone |
| SchedulerInvariants.StepTokensAre | src/engine/engine.cpp:14-24 | a running sequence feeds exactly the uncached rest of its context, never nothing, and its block delta is never negative |
| SchedulerInvariants.AssembleKeeps | src/engine/engine.cpp:84-119 | the batch has distinct running sequences, its deltas plus the remaining budget are the free count, no sequence left out would still fit, and sharing never lowers the free count |
| SchedulerInvariants.SelectIsFirstFit | src/engine/engine.cpp:84-119 | the batch lists running sequences in their order, and each one is in it if and only if it needs no more blocks than those before it have left of the free count |
| SchedulerInvariants.PreemptKeeps | src/engine/engine.cpp:162-178 | preemption keeps the invariant |
| SchedulerInvariants.PreemptQueuesFirst | src/engine/engine.cpp:162-178 | a preempted sequence keeps its output, loses its blocks and its place, and is first in the queue; nobody else changes |
| SchedulerInvariants.SelectKeeps | src/engine/engine.cpp:78-123 | after any number of preemptions the invariant holds, the batch is within budget, and no output changed |
| SchedulerInvariants.BatchReserves | src/engine/engine.cpp:83-128 | every reservation of the chosen batch succeeds from the free list alone, without evicting anything, and leaves what is left of the budget |
| SchedulerInvariants.SharedIsCommitted | src/kvcache/block_manager.cpp:147-212 | write isolation without copy on write: a block that the cache or another table place names lies below the committed full blocks of every table that holds it |
| SchedulerInvariants.FailedForwardKeeps | src/model/model.cpp:173-198 | a forward that throws after its reservations leaves a state of the invariant |
| SchedulerInvariants.ForwardKeeps | src/model/model.cpp:250-253 | after a forward each batched sequence has its whole context cached in a table of exactly that size |
| SchedulerInvariants.TakeAllKeeps | src/engine/engine.cpp:132-148 | taking tokens in batch order, with finishing and registering, keeps the mid-step invariant |
| SchedulerInvariants.RetireKeeps | src/engine/engine.cpp:150-159 | retiring restores the between-steps invariant |
| Schedulers.UnfinishedInOrder | src/engine/engine.cpp:150-159 | those who have not finished keep their order |
| SchedulerInvariants.StopsExtends | src/engine/engine.cpp:137-140 | an output stops at its end and nowhere before |
| EngineContents.FoundBlockHolds | src/kvcache/block_manager.cpp:147-184 | without parent collisions a cached block found for block k of a prompt holds exactly the K/V of that prompt's first k+1 blocks |
| EngineContents.SharedRowsHold | src/kvcache/block_manager.cpp:147-184 | all blocks shared with a fresh sequence hold the rows of its own context |
| EngineContents.RegisteredHolds | src/kvcache/block_manager.cpp:186-212 | registered blocks hold the rows of the prefixes they are registered under |
| EngineContents.AssembleSound | src/engine/engine.cpp:84-119 | sharing inside assembly keeps every row and output correct |
| EngineContents.PreemptSound | src/engine/engine.cpp:162-178 | preemption keeps every row and output correct |
| EngineContents.SelectSound | src/engine/engine.cpp:78-123 | the whole retry loop keeps every row and output correct |
| EngineContents.TakeSound | src/engine/engine.cpp:133-148 | taking a token, finishing and registering keep every row, cache entry and greedy output correct |
| EngineContents.TakeAllSound | src/engine/engine.cpp:132-148 | the same for the whole batch |
| EngineForwards.ForwardSound | src/model/model.cpp:159-281 | a batched forward from any state of the invariant gives each item the last row of its forward over the rows it held; from a correct state that is the last logits row of its own context, and the state left is correct |
| EngineForwards.ForwardKept | src/model/model.cpp:159-281 | a batched forward keeps every cache entry's rows and the rows of every sequence outside the batch |
| Progress.StepKeeps | src/engine/engine.cpp:53-160 | every step keeps the invariant, extends each batched output by its one token, changes no other output, and counts its tokens off the tokens still to come |
| Progress.StepProgresses | src/engine/engine.cpp:57-124 | caching on or off: with max_batch >= 1 and every unfinished context fitting the pool beside the blocks the cache keeps, a step with work emits a token or hits one outside the vocabulary, and the tokens still to come strictly fall |
| Progress.StepCanFinish | src/engine/engine.cpp:57-160 | without caching, requests that fit the empty pool always have that room, in the next state too |
| Progress.SelectsSomething | src/engine/engine.cpp:78-123 | under the same conditions the preempt-and-retry loop never ends with an empty batch |
| Progress.AdmitsSomething | src/engine/engine.cpp:57-68 | under the same conditions somebody runs after admission |
| Progress.StepStaysInVocab | src/engine/engine.cpp:128-136 | if every context is in the vocabulary a step never throws and this stays so |
| Stalls.IdleStepStalls | src/engine/engine.cpp:57-126 | the special case with nothing running, in terms of the state before the step: it emits if and only if the first queued request fits the free list; otherwise it changes nothing at all |
| Stalls.LoneStepStalls | src/engine/engine.cpp:57-126 | the special case of one running sequence that nobody can join, in terms of the state before the step: it emits if and only if what the sequence lacks after sharing is in the free list; otherwise it only shares |
| Progress.StepNeverEvicts | src/engine/engine.cpp:53-160 | no step takes a reference of the prefix cache away |
| Stalls.StepStalls | src/engine/engine.cpp:57-126 | for every state, caching on or off, whoever runs or waits: the batch is empty if and only if, after admission and sharing, every running sequence lacks more blocks than the pool has beside those that no preemption can give it |
| Stalls.SelectsNothing | src/engine/engine.cpp:78-123 | the same for the preempt-and-retry loop alone |
| Stalls.EmptyStep | src/engine/engine.cpp:57-126 | an empty step has admitted nobody, and leaves nobody who fits, nobody to preempt and nobody who can join |
| Stalls.EmptyStepIsLast | src/engine/engine.cpp:57-126 | after an empty step, preemptions in it or not, no later step changes anything until another request comes |
| Progress.TakeAllTakes | src/engine/engine.cpp:132-148 | each batched sequence takes exactly its own token and every other sequence is untouched |
| StalledEngines.StalledForEver | src/engine/engine.cpp:57-126 | from that state every step does nothing |
| StalledEngines.StalledRun | src/engine/engine.cpp:40-160 | a new engine with caching on and a two-block pool, given a request, two steps and a second request: whatever was sampled, any number of further steps leaves the second request waiting, although it fits the empty pool |
| StalledEngines.StarvedRun | src/engine/engine.cpp:40-160 | the same with a running request: it is given one token, and no number of further steps gives it the next one |
| BlockAllocators.BlockAllocator.constructor | include/engine/block_allocator.hpp:16-25 | all blocks are free, each named once, the lowest to be handed out first |
| BlockAllocators.BlockAllocator.Allocate | include/engine/block_allocator.hpp:35-43 | throws exactly when no block is free; otherwise the most recently freed block gets count one |
| BlockAllocators.BlockAllocator.Incref | include/engine/block_allocator.hpp:46-51 | throws exactly on a free block |
| BlockAllocators.BlockAllocator.Free | include/engine/block_allocator.hpp:54-63 | throws exactly on a double free; the block is free again exactly when its last holder leaves |
| BlockAllocators.FreeOrHeld | include/engine/block_allocator.hpp:35-63 | if one table and the cache name all live blocks, they and the free list cover the pool |
| BlockPools.AllocateKeeps | src/kvcache/block_manager.cpp:37-42 | allocation fails exactly when nothing is free and no entry is held by the cache alone; what it hands out was in no table |
| BlockPools.AllocateEvicts | src/kvcache/block_manager.cpp:37-42 | an entry leaves the cache if and only if nothing is free and the cache alone holds some block |
| BlockPools.ReserveKeeps | src/kvcache/block_manager.cpp:30-35 | reservation appends blocks no table held, leaves all held counts alone, and throws only when free list and evictable entries are exhausted |
| BlockPools.ReserveEvicts | src/kvcache/block_manager.cpp:30-72 | a reservation takes entries out of the cache if and only if it needs more blocks than are free and the cache alone holds some block |
| BlockPools.ReserveWithinFree | src/kvcache/block_manager.cpp:30-35 | with enough free blocks a reservation succeeds, takes exactly those, and leaves the cache alone |
| BlockPools.FreeKeeps | src/kvcache/block_manager.cpp:124-130 | freeing a held table never double-frees and keeps all counts accounted for |
| BlockPools.FreedInOrder | src/kvcache/block_manager.cpp:124-130 | blocks nobody else holds join the free list in the order of the table |
| BlockPools.AcquireKeeps | src/kvcache/block_manager.cpp:147-184 | the table grows by exactly the longest run of leading full blocks that are registered; nothing is allocated, freed or forgotten |
| Recency.AcquireStamps | src/kvcache/block_manager.cpp:157-176 | sharing moves the tick on by one for each shared block, in order; a shared entry is left with the tick of its last use, and every other entry is as it was |
| BlockPools.RegisterKeeps | src/kvcache/block_manager.cpp:186-212 | after registration every full block of the prompt is found; new entries describe exactly the prompt's blocks and old ones stay |
| Recency.RegisterStamps | src/kvcache/block_manager.cpp:186-212 | every entry that a registration adds is more recent than all before it, and entries that were there keep their ticks |
| BlockPools.DropKeeps | src/kvcache/block_manager.cpp:63-71 | dropping a victim gives back its one reference and no other |
| PrefixCaches.VictimUnique | src/kvcache/block_manager.cpp:44-62 | the least recently used entry held by the cache alone is unique, so the order of the hash map does not matter |
| PoolRuns.RunsAreAccounted | src/kvcache/block_manager.cpp:30-221 | over every sequence of manager calls each count is the number of table places plus cache entries naming the block, the free list is duplicate-free and exactly the count-0 blocks, and everything named is live, so no free or incref throws |
| PoolRuns.DriveManager | src/kvcache/block_manager.cpp:30-221 | any sequence of calls on a new block manager, by any number of clients, ends with every reference accounted for |
| PoolRuns.EvictingRun | src/kvcache/block_manager.cpp:30-212 | a run of the manager, for every block of tokens and every hash, in which a registered block is found, its owner leaves, another client reserves, and the block is found no more, with the cache never cleared |
| Recency.LruRun | src/kvcache/block_manager.cpp:44-212 | a run of the manager with two cached blocks, for every hash: the one registered first is used again, and the next client's block is taken from the other |
| PoolRuns.NothingLeaks | src/kvcache/block_manager.cpp:124-221 | once every table is freed and the cache is empty the whole pool is free |
| ForwardBatches.ReserveItemsWithinFree | src/model/model.cpp:173-194 | a batch whose summed deltas are within the free list is reserved without a throw and without eviction |
| BlockManagers.BlockManager.FindVictim | src/kvcache/block_manager.cpp:44-62 | visiting buckets in any order finds the victim whenever there is one |
| BlockManagers.BlockManager.EvictLru | src/kvcache/block_manager.cpp:44-72 | removes exactly the victim entry |
| BlockManagers.BlockManager.AllocateBlock | src/kvcache/block_manager.cpp:37-42 | computes the allocation function |
| BlockManagers.BlockManager.Reserve | src/kvcache/block_manager.cpp:30-35 | computes the reservation function |
| BlockManagers.BlockManager.Free | src/kvcache/block_manager.cpp:124-130 | computes the freeing function and resets the table |
| BlockManagers.BlockManager.AcquireSharedPrefix | src/kvcache/block_manager.cpp:147-184 | computes the acquisition function, and does nothing for a sequence that is not fresh |
| BlockManagers.BlockManager.RegisterPrefix | src/kvcache/block_manager.cpp:186-212 | computes the registration function |
| BlockManagers.BlockManager.ClearPrefixCache | src/kvcache/block_manager.cpp:214-221 | exactly the cache's references are gone |
| BlockManagers.BlockManager.Write | src/kvcache/block_manager.cpp:74-99 | the named logical rows get the given rows, every other physical row keeps its content |
| BlockManagers.BlockManager.GatherOne | src/kvcache/block_manager.cpp:101-114 | logical rows 0..n in order |
| BlockManagers.AddrInjective | src/kvcache/block_manager.cpp:79-83 | two logical rows share a physical row only if they share block and slot |
| HashCollisions.SharedByCollision | src/kvcache/block_manager.cpp:147-212 | after a prompt a + c and then b have been registered over any pool, with a and b of any numbers of blocks, the last block of a + c is handed out for b + c if and only if a and b share a chain hash |
| HashCollisions.CollisionsExist | src/kvcache/block_manager.cpp:132-145 | for every 64-bit block hash, FNV-1a included, every block size and every vocabulary, as soon as there are more runs of n blocks of vocabulary tokens than hashes, two of them share a chain hash |
| HashCollisions.EnoughPrefixes | src/kvcache/block_manager.cpp:132-145 | 65 blocks are enough for that, for every block size and every vocabulary of at least two tokens |
| HashCollisions.SmallestCollision | src/kvcache/block_manager.cpp:132-145 | every collision of runs of full blocks leads to a smallest one, where everything that registering below them makes a parent is free of collisions |
| HashCollisions.SameEntryIffCollision | src/kvcache/block_manager.cpp:155-168 | in every cache and for parents of any length, the empty one included, the entry that serves c after a serves c after b if and only if a and b share a chain hash |
| HashCollisions.FoundIffCollision | src/kvcache/block_manager.cpp:147-184 | a block cached for c after a alone is found for c after b if and only if a and b share a chain hash |
| WrongOutputs.WrongRun | src/engine/engine.cpp:40-160 | for every block size, every hash and every smallest collision of two runs a and b of any numbers of blocks, the empty one included: a run of the engine in which a greedy request that continues b, and whose own decoding is [1], finishes with [0] |
| WrongOutputs.CollisionMisleads | src/engine/engine.cpp:40-160 | whenever two different runs of full blocks of known tokens have one chain hash, some network and some run of known tokens give a greedy request an answer other than its own decoding |
| WrongOutputs.EveryHashMisleads | src/engine/engine.cpp:40-160 | so for every 64-bit hash, every block size and every vocabulary of at least two tokens |
| WrongOutputs.VictimMisled | src/engine/engine.cpp:128-136 | in that run the wrong token comes from the block that was cached for the continuation of a |
| RowContents.WritableIsAlone | src/kvcache/block_manager.cpp:74-88 | a block a sequence may still write to is at no other place of any table and in no cache entry |
| RowContents.TableOfBlocks | src/kvcache/block_manager.cpp:101-114 | blocks that hold the successive parts of a context make a correct table |
| RowContents.HoldsPrefix | include/engine/block_manager.hpp:66-71 | rows of a prefix are rows of every longer context |
| Network.HiddenCausal | src/model/model.cpp:105-139 | hidden rows of a prefix do not depend on what follows it |
| Network.PositionByPosition | src/model/model.cpp:91-149 | each position is embedded, attends in each layer with its own query to the keys and values of all positions up to its own, every one made at its own position, and is read out at the end |
| Network.LogitsCausal | src/model/model.cpp:91-149 | logits of a prefix are the first logits of the longer context |
| Network.GreedyRunIsGreedy | src/engine/speculative.cpp:52-63 | an output is the plain greedy decoding of its length if and only if each token is the greedy choice after those before it |
| ForwardCached.Forward | src/model/model.cpp:91-153 | over the contiguous cache: throws without touching the cache exactly for an empty or out-of-vocabulary chunk; else it returns the chunk's logits and extends every layer |
| PagedForwards.ForwardPaged | src/model/model.cpp:91-157 | throws for an empty chunk, a token outside the vocabulary or a pool too small for the rows, in this order and exactly then, with the cached rows as they were; else it returns the same logits and leaves the same rows as the forward over the contiguous cache |
| PagedForwards.ForwardChunks | src/model/model.cpp:91-157 | any split of a context into non-empty chunks through a paged cache gives the logits of the one-shot forward if and only if the whole context fits the pool, and throws otherwise |
| ForwardCached.OneShot | src/model/model.cpp:85-88 | the forward of a context on its own is the reference forward |
| ForwardCached.ChunkIsReference | src/model/model.cpp:91-149 | a chunk forwarded over the cache of a prefix yields the reference rows, and the cache of the longer context |
| ForwardCached.ChunkedEqualsOneShot | src/model/model.cpp:91-149 | any split of a token sequence into chunks gives, row for row, the logits of the one-shot forward |
| ForwardBatches.ForwardBatch | src/model/model.cpp:159-281 | whatever rows the tables hold, each item gets exactly the last logits row of the cached forward over its own rows, and its table holds the extended rows; no physical row outside the items' new rows is written; every throw is characterised |
| ForwardBatches.LayOut | src/model/model.cpp:165-194 | the first loop lays items out densely with their positions and computes the reservations, empty items and an exhausted pool included |
| ForwardBatches.OtherRowsSpared | src/model/model.cpp:219-230 | no cached row of a sequence outside the batch is written |
| ForwardBatches.CachedRowsSpared | src/model/model.cpp:219-230 | no row of a cached block is written |
| Lanes.WritesMiss | src/model/model.cpp:219-230 | the rows one item writes miss every row of the other items and its own cached rows |
| Lanes.AttendLane | src/model/model.cpp:219-247 | write, gather and attend give one item the attention rows of its own rows, old and new |
| Lanes.GatheredIsCache | src/model/model.cpp:231-247 | rows that hold a context are exactly that context's cache |
| Lanes.ContinuedLogits | src/model/model.cpp:255-281 | the forward of the rest of a context over the cache of its beginning ends in the last logits row of the one-shot forward |
| PagedKVCaches.PagedKVCache.EnsureBlocks | src/kvcache/paged_kv_cache.cpp:30-35 | throws exactly when the pool is smaller than the rows need |
| PagedKVCaches.PagedKVCache.Append | src/kvcache/paged_kv_cache.cpp:52-59 | appends the rows to one layer, throws exactly when they do not fit the pool and then changes no content, and uses no more blocks than the longest layer needs |
| PagedKVCaches.PagedKVCache.KeyTensor | src/kvcache/paged_kv_cache.cpp:74-77 | everything appended to the layer, in order |
| PagedKVCaches.PagedKVCache.ValueTensor | src/kvcache/paged_kv_cache.cpp:79-82 | everything appended to the layer, in order |
| PagedKVCaches.AppendBoth | include/engine/kv_cache.hpp:23-42 | for every interleaving of appends that fits the pool the paged and the contiguous cache hold the same rows |
| PagedKVCaches.RowsApart | src/kvcache/paged_kv_cache.cpp:41-45 | different logical rows have different addresses |
| PagedKVCaches.WasteIsSmall | include/engine/paged_kv_cache.hpp:25-31 | blocks used are the ceiling of the longest layer; when layers agree, less than one block is unused |
| Speculative.SpeculativeGreedy | src/engine/speculative.cpp:24-74 | for every draft, lookahead and non-empty prompt the result is exactly plain greedy decoding of max(0, max_tokens) tokens, in at most that many target forwards; a draft that always agrees needs one for each lookahead + 1 tokens |
| Speculative.Verify | src/engine/speculative.cpp:47-71 | each round emits the target's own greedy tokens: all proposals up to the first that differs, and one more token unless the limit is reached |
| Speculative.VerifiedRow | src/engine/speculative.cpp:58-63 | rows of the verification forward are the rows of the growing context as long as proposals are accepted |
| Sampler.ArgMaxScan | src/sampler/sampler.cpp:13-21 | the scan finds the first index of the maximum |
| Sampler.Sample | src/sampler/sampler.cpp:25-31 | an empty row is refused; a temperature of zero or less picks the first maximum; any other pick is in the vocabulary |
| Attentions.OnlineThread | src/cuda/device.cu:139-190 | the single-pass online softmax, from any starting maximum, is the softmax-weighted mean |
| Attentions.TwoPass | src/model/nn.cpp:186-224 | the two-pass softmax is the same softmax-weighted mean |
| Attentions.AttentionKernel | src/cuda/device.cu:139-190 | one thread per head and query: every output coordinate is causal grouped-query attention |
| Attentions.Attention | src/model/nn.cpp:151-227 | every output coordinate of the reference is causal grouped-query attention; errors exactly for shapes that do not fit |
| Attentions.HeadReadsItsGroup | src/model/nn.cpp:186-187 | of both attentions: query head g * group + m reads key head g and no other, and no row after its own, so its result stays whatever else changes |
| Attentions.OneRowIsItsValue | src/model/nn.cpp:184-221 | a query that sees one row returns the value of its own group's key head |
| Attentions.EveryRowCounts | src/model/nn.cpp:184-221 | every row up to the query's own counts: a larger value in one of them gives a larger result |
| Attentions.TwoKeys | src/model/nn.cpp:190-217 | of two visible rows each counts in proportion to the exponential of its scaled dot product with the query |
| Attentions.SlicesJoin | src/model/nn.cpp:192-193 | the slices of a row that the heads read are, side by side, the row |
| Attentions.Rebase | src/cuda/device.cu:165-182 | moving the running maximum keeps the absolute sums |
| Attentions.MeanIsBetween | src/model/nn.cpp:199-217 | the result lies between the smallest and the largest value |
| Reductions.ArgMaxKernel | src/cuda/device.cu:232-266 | for any row and any power-of-two thread count the kernel returns the first maximum if some entry exceeds the sentinel, and entry 0 otherwise |
| Reductions.ThreadScan | src/cuda/device.cu:239-247 | a thread's strided scan reports an entry of its own indices that none of them beats, or the sentinel; a thread beyond the row reports the sentinel |
| Reductions.TreeArgMax | src/cuda/device.cu:250-262 | the tree leaves in cell 0 a candidate that none beats |
| Reductions.TreeSum | src/cuda/device.cu:81-86 | the tree leaves in cell 0 the sum of all cells |
| Reductions.PartialsAdd | src/cuda/device.cu:75-80 | each entry belongs to exactly one thread, so the strided partial sums add up to the sum of squares |
| Reductions.RmsNormKernel | src/cuda/device.cu:66-98 | for any row length, zero included, and power-of-two thread count every entry is the normalised, weighted entry of the reference |
| Reductions.RmsNorm | src/model/nn.cpp:45-73 | the reference loops compute the normalised, weighted entries of a row, empty rows included; errors exactly for a weight of another size |
| Reductions.NormedTimesRoot | src/model/nn.cpp:65-69 | each entry times the root of the mean square plus eps is the entry times its weight |
| Reductions.UnitMeanSquare | src/model/nn.cpp:65-69 | without weights the mean square of the result is one, but for eps |
| TensorParallel.SplitRows | src/engine/tensor_parallel.cpp:9-29 | the shards are the consecutive row blocks; errors exactly for a shard count that is not positive or does not divide |
| TensorParallel.SplitColumns | src/engine/tensor_parallel.cpp:31-53 | the shards are the consecutive column blocks; errors exactly for a shard count that is not positive or does not divide |
| TensorParallel.ConcatColumns | src/engine/tensor_parallel.cpp:55-79 | rows of all parts side by side; errors exactly for no parts or different row counts |
| TensorParallel.Sum | src/engine/tensor_parallel.cpp:81-99 | a matrix of the first part's shape with the entry by entry sum in row-major order; errors exactly for no parts or different entry counts |
| TensorParallel.ColumnsRoundTrip | src/engine/tensor_parallel.cpp:31-79 | concat_columns inverts split_columns |
| TensorParallel.ColumnParallelIsLinear | src/engine/tensor_parallel.cpp:9-79 | the linear layer over split weight rows, concatenated, is the whole linear layer |
| TensorParallel.RowParallelIsLinear | src/engine/tensor_parallel.cpp:31-99 | the linear layer over split columns of inputs and weights, summed, is the whole linear layer |
| TensorParallel.SummedIsLinear | src/engine/tensor_parallel.cpp:81-99 | what sum returns for the shards' outputs over split columns is the whole linear layer |
| Linears.LinearPicksColumns | src/model/nn.cpp:15-43 | a unit row picks the weight column of its place |
| Linears.LinearIsLinear | src/model/nn.cpp:15-43 | each output is linear in its own row of the input |
| Quantization.QuantizeRowwise | src/quant/quant.cpp:11-40 | the loops compute scale and codes of every row |
| Quantization.CodeIsNear | src/quant/quant.cpp:26-36 | the clamp never acts, codes lie in [-127, 127], and decoding is off by half a scale at most |
| Quantization.ExtremeIs127 | src/quant/quant.cpp:22-36 | the largest weight of a row is coded as 127 or -127 |
| Quantization.RoundTies | src/quant/quant.cpp:30-34 | halves are rounded away from zero |
| Quantization.QuantizeIdempotent | src/quant/quant.cpp:11-40 | quantizing the decoded matrix gives the same codes and scales |
| Quantization.LinearInt8 | src/quant/quant.cpp:42-79 | each entry is the scaled dot product with the codes plus the bias; errors exactly for sizes that do not match |
| Quantization.LinearInt8Error | src/quant/quant.cpp:42-79 | with any bias or none, each output differs from the layer with the original weights and the same bias by at most scale/2 times the sum of absolute inputs |
| Quantization.BiasIsAdded | src/quant/quant.cpp:72-74 | the output with a bias is the output without plus the bias of that output |
| Services.EngineService.Submit | python/engine/server.py:54-61 | a stream is opened for an accepted request and the loop is woken |
| Services.EngineService.RunOnce | python/engine/server.py:75-91 | a turn with work is one step of the engine, after which every open queue has exactly the tokens of its output that it had not got, in order, and the end if and only if the request has finished; a turn without work sleeps and changes nothing else; the loop only sleeps without a pending wakeup when there is no work |
| Services.EngineService.EmitAll | python/engine/server.py:82-90 | visiting the open streams in any order gives each one exactly its new tokens, and the end if its request has finished |
| Services.EngineService.Receive | python/engine/server.py:63-73 | messages are the next tokens in order; the done message comes exactly when the client has the whole finished output |
| Services.EngineService.Abandon | python/engine/server.py:71-73 | a client may leave at any time without disturbing the others |
| Services.FanEmit | python/engine/server.py:82-90 | emitting one stream's new tokens brings it up to date and leaves the others alone |
| Services.FanReceive | python/engine/server.py:63-73 | receiving a message keeps yielded plus queued tokens equal to the emitted output |
| Services.StreamIsSolo | python/engine/server.py:54-91 | a greedy client that has been told the end has been given exactly its request's own plain greedy decoding |
| ServiceRuns.DriveService | python/engine/server.py:54-91 | over every sequence of requests, turns of the loop, reads and departures, a failed step included, each greedy client has been given a prefix of its own request's plain greedy decoding, and all of it if it was told the end, unless two parent prefixes collide |
| ServiceRuns.Flush | python/engine/server.py:75-91 | without caching, with requests that fit the empty pool and known tokens, at most as many turns as there are tokens to come put the whole rest of every open stream and its end into its queue |
| ServiceRuns.Serve | python/engine/server.py:54-91 | one event keeps the service valid and adds at most the accepted request |

## Left out

- Engines.Engine.Generate: requires prefix caching off, a batch slot, and that every unfinished request fits the empty pool, because otherwise the source may loop for ever; the runs of StalledEngine do.
- Sampler.Sample: the stochastic branch picks an arbitrary token of the row; softmax, top-k, top-p and the random generator are not modelled, and nothing is claimed about outputs of requests with a positive temperature except their length and where they stop.
- ForwardBatches.ForwardBatch: requires that no two items name the same sequence and that the tables' references are accounted for in the pool, which the source does not check; the engine never builds another batch.
- Reductions.RmsNorm: requires, of a row with entries, that the root in the denominator is not zero, where the source divides by zero in floating point; the square root is a parameter.
- Reductions.RmsNormKernel: the same, and that the weight has the row's size, which the kernel does not check.
- Services.EngineService.RunOnce: a step that throws ends the loop, as in the source; clients keep what they were given and can read what is queued, but nothing says that they are told.
- Sequences are values in a table indexed by id, and batch items name the id; the source keeps pointers into a hash map. Aliasing through those pointers is not captured.
- A row of kv_dim floats is one element of the stores; flat offsets inside a row are not modelled.
- Constructors take sizes the source accepts; the exceptions for non-positive layer counts, dimensions and block sizes, and negative pool sizes, are absent.
- Floating-point rounding, NaN and infinities, and the matrix products inside Eigen and cuBLAS.
- Wrap-around of 64-bit ids, ticks and tokens, of 32-bit reference counts, and failed memory allocation.
- The bias of the full-precision linear layer is part of the abstract row operators.
- The prefix-hit counter is kept but nothing is stated about it.
- The concrete FNV-1a arithmetic: the block hash is any function, with values below 2^64 where that matters.
- The GPU engine, GPU caches and block manager, the paged scatter and gather kernels, and the other element-wise kernels, whose CPU counterparts are modelled or abstract.
- Weight files, configuration, tokenizer, chat templates, HTTP routes, event-stream formatting, bindings and benchmarks.
