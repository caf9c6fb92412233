# A verified model of the iian serving core

iian serves language models: requests arrive, are batched step by step over a paged key-value (KV) cache that shares
cached prefixes, may be preempted and recomputed, may be advanced several tokens at a time by speculative drafts, and may
be constrained by a grammar. This project models that core in Dafny and proves what it keeps.

## What is modelled

**Serving** (`Types`, `PoolSpec`, `BlockPool`, `KvSpec`, `Collisions`, `PagedKVCache`, `PrefixClosure`, `Generation`,
`Stopping`, `Serving`, `KvInvariant`, `PrefixHits`, `SchedulerSpec`, `Steps`, `Forward`, `Commit`, `StepKv`, `Speculation`, `Progress`,
`Tally`, `Turn`, `Service`, `Scheduler`, `MicroBatch`, `BatchOrder`, `WriteSlots`, `Rounds`, `Engine`, `Livelock`, `Stall`).
The block pool is a class over an intrusive doubly linked free list and a hash index; the paged cache, the scheduler and the
engine are classes on top of it. A KV cell holds a free term: the entries attended when it was written, and the token. So
"this cell holds the KV of exactly this prefix" is an equation, and a wrong cell, a wrong order or a stale cell is a different
term. The language model, the sampler with its random state, the end-of-generation test and the text state are functions
given with the configuration (`Env`); drafts are arbitrary tokens. `Isolated` is the reference: decode alone, one token per
step, from the full prefix; `Stopping` says what such a run is by its tokens alone: what each was drawn from, that none before
the last one had to end it, and why the last one does.
The main theorem is `Engines.RunService`: over any traffic, whatever a request has generated is a stretch of its isolated
run, and all of it if it ended by itself; no request has a token too many or too few; and under first come first served, where the configuration lets no request be too
long for a step (`Flows`: prompts may be chunked, or a step holds a whole context, or the windows are capped to a step),
every accepted request that is not aborted ends by itself within an explicit number of steps.

**Grammars** (`Pushdown`, `Grammar`, `GrammarEngine`, `LeftRecursion`, `Utf8`, `CandidateFilter`, `GrammarMask`,
`GuidedDecoding`, `Repetition`, `Rewriting`, `IntRange`). Tokens are bytes, decoded as in the source. Rules are arrays of
elements, stacks are sequences of positions, and derivation is defined independently of both. The stacks are shown to be
exactly the residual of the grammar after the text, the batch filter to agree with the acceptor, a whole constrained generation to stay inside the language, and the
left-recursion check, the repetition rewriting and the integer-range compiler to be exact, each with the precise condition
under which it is.

**Fast forms** (`Attention`, `GatherAttention`, `BatchAttention`, `StopStrings`, `Detokenizer`, `Selection`, `BucketSort`).
Three attention paths against one relation "token attends cell", tied to the rows of the forward pass; streaming text
against searching the whole text; the bucket sort and the insertion buffer against the one sorted order.

## Where the code falls short of what it is for

Each of these is a lemma or part of a contract, with an input and the exact condition.

- **A hash collision can return wrong KV.** The headers and docs/ARCHITECTURE.md:80-81 say that comparing token ids on a hit
  excludes it. Only the block's own tokens are compared: for every block size, two different prefixes with the same chained
  hash pass each other's test at every block that may follow, and all KV entries of that block differ
  (`Collisions.TokenCheckIsNotEnough`). Such prefixes exist for every hash with no more values than there are blocks over the
  vocabulary (`Collisions.SomeHitIsWrong`), so for every 64-bit hash with the default block size of 16 and at least 16 tokens
  (`Collisions.DefaultBlocksCollide`). All token results need no more than that the hash keeps apart the prefixes of the
  traffic's own isolated runs, and nothing at all with prefix caching off.
- **A preempted request may wait forever.** docs/ARCHITECTURE.md:139 claims forward progress. A step does nothing exactly if
  nothing runs and the head of the queue lacks more tokens than a step may take (`Stuck`). A new request is then failed, but a
  preempted one is neither scheduled nor failed. This comes about in service, with nobody aborting anything: four blocks of
  one token, two tokens to a step, contexts of four tokens, no chunks and no prefix cache. Two requests of one token each
  start together; in the third step there is no block left for the second one, which is preempted with three tokens, while the
  first one fills its context and leaves (`Stall.ReachStall`). From then on nothing is computed in any number of steps
  (`Stall.StarvesForever`). It cannot happen where `Flows` holds.
- **Arrivals behind such a head fail, even if they would fit.** In a step that can schedule nothing every request that never
  ran is failed, not just the one that does not fit: in a stalled engine every arrival is, until the waiting one is aborted
  (`Livelock.StaysStalled`). Where `Flows` does not hold, a fresh engine accepts a prompt that does not fit a step, and fails
  it in its first step (`Livelock.TooLongFails`).
- **Sent text may be taken back.** With a non-empty stop string, what the client received is the final text for all outputs
  if and only if `min_tokens <= 1` (`StopStrings.LosslessIff`): above that, a stop string is found only after part of it was
  delivered.
- **The mask lets through what the acceptor refuses.** The filter reads a token up to its first code point 0, the acceptor all
  of it. A zero byte ends both (`GrammarMask.NulCuts`), but an overlong zero does not: for the bytes 61 C0 80 the mask asks
  about the letter only (`GrammarMask.OverlongDisagrees`). The two agree for every grammar and every state if and only if the
  token spells something and has no overlong zero before its first zero byte (`GrammarMask.AgreeIffZeroFree`), so for all
  tokens that are UTF-8 text (`GrammarMask.TextAgrees`).
- **An empty token drops finished stacks.** `GrammarEngine.Grammar.AcceptToken` keeps the stacks in step with the text if and
  only if the token has a code point or no stack was finished.
- **Hidden left recursion passes the check.** The check counts a rule as possibly empty only if an alternative is empty as it
  stands. `s ::= a s "x" | "y"`, `a ::= b`, `b ::= ""` passes, and expanding its stacks does not end
  (`LeftRecursion.HiddenRecursionPasses`). A grammar is usable if and only if no rule leads back to itself past rules that
  can be empty; the check is right exactly if such a cycle comes with one past directly empty rules.
- **One lower bound is lost.** With both bounds given, the compiled integer range is exact if and only if the lower bound is
  not `-INT64_MAX`, whose negation reads as "no bound" (`IntRange.BuildMinMax`).
- **`{m,n}` with `m > n` or `n > 2000`** does not mean m to n items: the bounds are kept if and only if `m <= n <= 2000`
  (`Rewriting.BoundsKept`).

## Model

| member | source | states |
|---|---|---|
| `Engines.RunService` | src/iian/engine.cpp:456-637 | from a fresh engine, for all traffic: every arrival is on record as submitted under its own fresh handle, or refused; only aborted requests end as aborted, and a request is failed only where requests can be too long for a step and before it has generated anything; every request goes on, stops or is full exactly as its tokens say, with at most max_tokens of them; if prefix caching is off or the hash keeps apart the prefixes of the traffic's isolated runs, every request stands on its isolated run, each token drawn from the model's answer to the tokens before it, and has all of it if it ended by itself; under first come first served, where no request can be too long for a step, every accepted request not aborted ends by itself in time; under the priority policy no arrival waits behind a worse one |
| `Engines.Engine.Serve` | src/iian/engine.cpp:456-637 | the same for any number of steps from any state in order, for the requests that were there and those that arrive |
| `Engines.Engine.Step` | src/iian/engine.cpp:456-637 | one step keeps all invariants, records exactly what was submitted, ends early only what was aborted or, before it ran, could not be scheduled, and where no request can be too long brings everybody in line one step closer; without aborts the arrivals come in and then either a round is worked, with everybody scheduled who can be and every window counted and answered, or nothing can be scheduled and exactly those who never ran fail |
| `Engines.Engine.Receive` | src/iian/engine.cpp:457-470 | arrivals queue in order under consecutive handles, then only aborted requests leave; without aborts the records, the queue, the pool and the cells are exactly the old ones and the new requests |
| `Engines.Engine.Ingest` | src/iian/engine.cpp:466 | each submission gets the next handle and a record with its own prompt, parameters, salt, priority and arrival, with nothing generated or computed, and a queue place, or is refused with none; nothing else changes; under the priority policy none of them waits behind a worse one |
| `Engines.Engine.IngestOne` | src/iian/engine.cpp:290-326 | empty prompts and prompts that fill the context are refused, everything else is queued with a record that holds what was submitted |
| `Engines.Engine.AbortAll` | src/iian/engine.cpp:467-469 | only the named requests leave the line, their blocks go back, and everybody else keeps the place |
| `Engines.Engine.Turn` | src/iian/engine.cpp:471-637 | a round is worked exactly if the state is not stuck; otherwise exactly those who never ran fail; where no request can be too long the head of the line advances |
| `Engines.Engine.FailWaiting` | src/iian/engine.cpp:477-485 | exactly the requests that never ran are failed and leave the queue; preempted ones keep their order, and records, running list, pool and cells are otherwise unchanged |
| `Engines.Engine.ComputeBatch` | src/iian/engine.cpp:488-532 | rows, cells and logits of a step: each request's logits are cut out of the flat output at the right rows |
| `Engines.Engine.Compute` | src/iian/engine.cpp:536-617 | the cells afterwards are those of the rows written one after the other |
| `Engines.Engine.ProcessOutputs` | src/iian/engine.cpp:639-750 | all scheduled requests are answered, and go on or leave, with the invariants of the middle of a step |
| `Engines.Engine.AnswerNext` | src/iian/engine.cpp:645-749 | one request is answered: drafts verified, rejected ones rolled back, finished if it stopped, and its whole generation so far stops where its tokens say |
| `Engines.Engine.constructor` | src/iian/engine.cpp:160-168 | a cache with room for one full context starts in order |
| `Service.ScheduleIndependence` | README.md:72-73 | the same submission in two engines with any configurations and traffic gives the same tokens and finish reason when both let it end; until then one is ahead of the other on the same run |
| `Service.ServedWell` | src/iian/engine.cpp:456-637 | from what every step keeps to the promises of a whole run: exact outputs, and an end by itself for everybody within the waiting bound |
| `Service.SteadyExact` | src/iian/engine.cpp:658-749 | in every state with KV integrity every request, finished or cut off, stands on its isolated run, each token drawn from the model's answer to exactly the tokens before it |
| `Service.OkEndRight` | src/iian/engine.cpp:704-733 | in every state, whatever the KV cells hold, every request stops at its first end-of-generation token that is not ignored, stop token or stop string, else with max_tokens tokens, else with a full context, for that reason, and no token before called for an end |
| `Service.OrderedIsKept` | src/iian/scheduler.cpp:42-52 | under the priority policy no waiting arrival of the traffic stands behind one with a larger priority value, or an equal one and a later arrival |
| `Service.OwnPrefixesSuffice` | src/iian/kv_cache.cpp:190-197 | the hash needs to keep apart only the prefixes of the traffic's isolated runs |
| `Service.OffIsTrusted` | src/iian/kv_cache.cpp:199-201 | without prefix caching nothing is asked of the hash |
| `Progress.NobodyStarves` | src/iian/scheduler.cpp:84-160 | first come first served: whoever has p others ahead has ended after (p + 1) times the maximal context length steps, by itself where no request can be too long for a step and if not aborted |
| `Progress.HeadGains` | src/iian/engine.cpp:736-744 | a head of the line that is still first after a step has strictly more computed, also after rejected drafts are rolled back and wherever it stood in the batch |
| `Progress.TurnStride` | src/iian/scheduler.cpp:84-171 | scheduling, then running the batch in any order, brings the line one step forward |
| `Livelock.StaysStalled` | src/iian/engine.cpp:477-485 | first come first served and without aborts a stalled engine stays stalled with the same queue for any number of steps, and every arrival fails |
| `Livelock.TooLongFails` | src/iian/engine.cpp:477-485 | wherever the configuration does not rule it out, a fresh engine accepts a prompt one token longer than a step and fails it in its first step |
| `Stall.ReachStall` | src/iian/engine.cpp:456-637 | for every block hash and sampler: a fresh cramped engine and two submissions of one token that differ; after three steps without aborts the first request has filled its context and the second waits, preempted, too long for any step |
| `Stall.StarvesForever` | src/iian/engine.cpp:456-637 | from there, over any traffic without aborts, nothing is served: the second request keeps waiting and every arrival fails |
| `Stall.ThirdRound` | src/iian/scheduler.cpp:70-160 | with three tokens each the second request must be preempted, as the tables of two requests with different first tokens are disjoint, and the step ends stalled |
| `Stall.TablesApart` | src/iian/kv_cache.cpp:199-229 | two running requests that differ in their first token share no block |
| `Scheduling.Scheduler.Schedule` | src/iian/scheduler.cpp:84-160 | the schedule meets the contract below, windows included; nothing is scheduled exactly if stuck; phase 2 only moves from the front of the queue to the end of the running list; unless somebody was preempted, everybody running is scheduled while budget is left and nothing that could start is left waiting |
| `SchedulerSpec.ScheduleContract` | src/iian/scheduler.cpp:84-160 | the total is the sum of the parts and within the budget, running requests stay within the limit, contexts within the maximal length, nobody is scheduled twice, victims are not scheduled and never the first running request, whoever is not preempted keeps everything computed; every window holds all missing real tokens up to the threshold and what is left of the budget, a running request's also as many drafts as fit budget and context if no real token is left out, a starting request's none |
| `SchedulerSpec.FlowsOn` | src/iian/scheduler.cpp:141 | where prompts may be chunked, a step holds a whole context or windows are capped to a step, something can be scheduled whenever anybody is in line |
| `Scheduling.Scheduler.ScheduleRunning` | src/iian/scheduler.cpp:88-124 | phase 1 serves running requests in order with windows as wide as can be, and cuts victims off the back; with none cut and budget left everybody running is scheduled |
| `SchedulerSpec.PlanOk` | src/iian/scheduler.cpp:91-103 | a running request gets all real tokens that threshold and budget allow and, only with all of them, the largest number of drafts that fits |
| `Scheduling.Scheduler.ScheduleWaiting` | src/iian/scheduler.cpp:126-158 | phase 2 admits from the front, each with all the tokens that threshold and budget allow, and in vain changes nothing but the head's hashes |
| `Scheduling.Scheduler.ScheduleHead` | src/iian/scheduler.cpp:128-157 | a head that starts has exactly the tokens computed that the cache holds of it |
| `Scheduling.Scheduler.MakeRoom` | src/iian/scheduler.cpp:105-118 | room for the request or its own preemption, with the victims listed from the back; the first running request always gets room |
| `Scheduling.Scheduler.AdmitHead` | src/iian/scheduler.cpp:129-156 | the head starts with its cached prefix and room for its tokens, all that are missing after the hits up to threshold and budget, or nothing changes |
| `Scheduling.Scheduler.PreemptLast` | src/iian/scheduler.cpp:70-82 | the last running request gives all blocks back and goes to the front of the queue, or to its place by priority, with nothing computed |
| `Scheduling.Scheduler.AddRequest` | src/iian/scheduler.cpp:42-52 | a new request goes to the end of the queue or to its place by priority, with all invariants kept |
| `Scheduling.Scheduler.DropRunning` | src/iian/scheduler.cpp:61-65 | a running request leaves with its blocks returned |
| `Scheduling.Scheduler.DropWaiting` | src/iian/scheduler.cpp:66-68 | a waiting request leaves the queue |
| `Scheduling.Scheduler.UpdateAfterStep` | src/iian/scheduler.cpp:162-171 | every scheduled window is counted, and afterwards every full block of computed, real tokens of these requests counts as registered |
| `Turn.CountedStored` | src/iian/scheduler.cpp:166-169 | so for one request, once its hashes are up to date |
| `SchedulerSpec.JoinSorted` | src/iian/scheduler.cpp:44-48 | under the priority policy the queue stays sorted; otherwise the line grows at the end |
| `SchedulerSpec.PreemptSorted` | src/iian/scheduler.cpp:79 | preemption keeps the priority order as well |
| `Forward.BatchKv` | src/iian/engine.cpp:491-617 | KV integrity through the forward pass: after a batch of rows every request's cells hold exactly what it was fed, drafts included |
| `StepKv.AnswerRight` | src/iian/engine.cpp:519-524 | each logits row of a request is the model applied to exactly its prefix |
| `StepKv.SoundLeave` | src/iian/engine.cpp:748 | a finished request leaves with KV integrity kept for all others |
| `StepKv.AdvanceKv` | src/iian/scheduler.cpp:166-169 | counting a window and registering the blocks it filled keeps KV integrity |
| `Commit.RegisterNextKv` | src/iian/kv_cache.cpp:231-238 | registering one full computed block keeps KV integrity and the prefix closure |
| `KvInvariant.RequeueKv` | src/iian/scheduler.cpp:70-82 | preemption by recompute keeps KV integrity |
| `KvInvariant.GrowKv` | src/iian/kv_cache.cpp:214-229 | new blocks at the end of a table keep KV integrity, although they may evict cached ones |
| `KvInvariant.HitChain` | src/iian/kv_cache.cpp:77-85 | every block found was computed under the same whole prefix and salt, given that the hash keeps the trusted prefixes apart |
| `KvInvariant.EmptyKv` | src/iian/engine.cpp:166-168 | the empty cache is in order |
| `PrefixHits.LookupExact` | src/iian/kv_cache.cpp:199-212 | a lookup passes block j if and only if the whole prefix up to block j is in the cache: nothing wrong is found and nothing reusable is missed |
| `PrefixHits.HitIffCached` | src/iian/kv_cache.cpp:77-85 | the hit test at one block answers whether that block of that prefix is cached |
| `PrefixHits.StoredInCache` | src/iian/kv_cache.cpp:231-238 | what counts as registered is in the cache under the request's own prefix |
| `PrefixHits.ResubmittedIsFound` | src/iian/kv_cache.cpp:199-212 | a prompt that a running request begins with, computed short of its last token, is found up to the last block boundary before that token |
| `PrefixHits.StaysInCache` | src/iian/kv_cache.cpp:240-246 | and stays in the cache when the request's blocks are returned |
| `PrefixClosure.GrownClosed` | src/iian/kv_cache.cpp:87-102 | taking hits and evicting from the front never orphans a cached chain: its parent is in use or behind it in the free list |
| `PrefixClosure.ReturnedClosed` | src/iian/kv_cache.cpp:240-246 | returning a table last block first keeps that closure |
| `PrefixClosure.RegisterClosed` | src/iian/kv_cache.cpp:118-125 | so does registering a block in use |
| `PrefixClosure.ReleaseOrder` | src/iian/kv_cache.cpp:104-116 | released blocks enter the free list in the order given, at the front and at the back |
| `PrefixClosure.FreeLayout` | src/iian/kv_cache.cpp:104-116 | blocks that nobody references any more join the free list, unregistered ones in front of all that was free and registered ones behind it; counts drop by the listed occurrences and nothing else changes |
| `KvSpec.InjectiveIsCollisionFree` | src/iian/kv_cache.cpp:24-29 | mixing rounds injective in parent, tokens and salt that avoid the reserved value give no collisions among any prefixes, chained over any length |
| `Collisions.TokenCheckIsNotEnough` | include/iian/kv_cache.h:9 | whatever the hash and the block size, two prefixes with the same hash pass each other's test at every following block, and all its KV entries differ |
| `Collisions.SomeHitIsWrong` | include/iian/kv_cache.h:9 | such prefixes exist for every hash with at most as many values as there are blocks over the vocabulary |
| `Collisions.DefaultBlocksCollide` | include/iian/kv_cache.h:27-37 | so for every 64-bit hash, block sizes from the default on and vocabularies of at least 16 tokens |
| `WriteSlots.SlotIsPrivate` | src/iian/engine.cpp:509-514 | every row writes into an unregistered block with a single reference |
| `WriteSlots.SlotsDistinct` | src/iian/engine.cpp:509-514 | all write slots of a step are pairwise distinct |
| `MicroBatch.BuildBatch` | src/iian/engine.cpp:491-532 | the flat batch is the requests' rows in order, and every request's logits rows are found at the recorded index |
| `MicroBatch.ReadLogits` | src/iian/engine.cpp:525-532 | each output row reads the entries its token attends, itself included |
| `BatchOrder.ByCountStable` | src/iian/engine.cpp:490 | sorting for gather attention keeps the order among equal token counts |
| `BatchOrder.ByCountDescends` | src/iian/engine.cpp:490 | and orders by descending token count |
| `BatchOrder.OrderEntries` | src/iian/engine.cpp:490 | the sorted batch is as good as the scheduled one |
| `Speculation.Answer` | src/iian/engine.cpp:655-744 | for arbitrary drafts the result is the confirmed drafts and one sampled token, it equals that many isolated steps in tokens, sampler, text and stop decision, and an unfinished request is left with one token to compute; whatever the rows are, each token is drawn from its own row with end-of-generation tokens masked exactly while fewer than min_tokens are out, and stops or fills the request as its tokens say |
| `Stopping.TracedIsDecoded` | src/iian/engine.cpp:658-735 | standing on the isolated run is the same as having tokens that were each drawn from the model's answer to the tokens before it, with no earlier one an end, and with the verdict the last one calls for |
| `Stopping.EmitIs` | src/iian/engine.cpp:658-735 | one more token: what it is drawn from, what it does to the text state, and the verdict, all read off the token sequence |
| `Stopping.LoggedEnds` | src/iian/engine.cpp:704-733 | at most max_tokens tokens and one context; STOP if and only if the last token is a stop; LENGTH if and only if it is not and the output or the context is full; no earlier token is either |
| `Generation.IsolatedAdd` | src/iian/engine.cpp:658-735 | isolated decoding can be cut into any two stretches |
| `PagedKV.BlockNoIsDiv` | include/iian/kv_cache.h:135-137 | the cell of a token is found by division with remainder by the block size |
| `PagedKV.PagedKVCache.UpdateHashes` | src/iian/kv_cache.cpp:190-197 | afterwards there is one right chained hash per full block, and the old ones stay |
| `PagedKV.PagedKVCache.GetComputedBlocks` | src/iian/kv_cache.cpp:199-212 | a multiple of the block size below the number of tokens; every block found stores the tokens asked for; it stops only at the cap or at a block that is not there |
| `PagedKV.PagedKVCache.AllocateSlots` | src/iian/kv_cache.cpp:214-229 | succeeds exactly if the free list suffices, counting hits that leave it; then the table grows by the hits and fresh blocks and holds all tokens; otherwise nothing changes |
| `PagedKV.PagedKVCache.CacheBlocks` | src/iian/kv_cache.cpp:231-238 | with caching every full block from num_cached_blocks on that has a hash is registered afterwards, under that hash and with its own tokens unless it was registered before; no other block changes; num_cached_blocks counts exactly these besides the old ones; without caching nothing changes |
| `PagedKV.RangeFiles` | src/iian/kv_cache.cpp:234-236 | the loop over a stretch of the table registers each block at its first place under its own prefix, and no others |
| `PagedKV.PagedKVCache.Free` | src/iian/kv_cache.cpp:240-246 | every reference of the table is given back, last block first |
| `BlockPools.BlockPool.constructor` | src/iian/kv_cache.cpp:34-37 | all blocks are free, in order, unregistered |
| `BlockPools.BlockPool.ListRemove` | src/iian/kv_cache.cpp:39-47 | the linked list stays a duplicate-free list of the free blocks, without this one |
| `BlockPools.BlockPool.ListPushFront` | src/iian/kv_cache.cpp:48-53 | the block is first in the list |
| `BlockPools.BlockPool.ListPushBack` | src/iian/kv_cache.cpp:54-59 | the block is last in the list |
| `BlockPools.BlockPool.ListPopFront` | src/iian/kv_cache.cpp:60-65 | the first free block, or none if there is none |
| `BlockPools.BlockPool.EvictHash` | src/iian/kv_cache.cpp:66-75 | only this block leaves the index, which stays exact |
| `BlockPools.BlockPool.GetCachedBlock` | src/iian/kv_cache.cpp:77-85 | a block with this hash and these tokens, or none exists |
| `BlockPools.BlockPool.Touch` | src/iian/kv_cache.cpp:87-91 | one more reference; a free block leaves the list |
| `BlockPools.BlockPool.GetNewBlocks` | src/iian/kv_cache.cpp:93-102 | refused exactly if too few are free; otherwise the first n come out unregistered with one reference |
| `BlockPools.BlockPool.FreeBlocks` | src/iian/kv_cache.cpp:104-116 | refused exactly on a double free; otherwise unregistered blocks go to the front and registered ones to the back |
| `BlockPools.BlockPool.CacheBlock` | src/iian/kv_cache.cpp:118-125 | registers the block unless caching is off or it is registered |
| `BlockPools.BlockPool.ResetPrefixCache` | src/iian/kv_cache.cpp:127-132 | clears the index exactly if all blocks are free |
| `Grammars.MatchChar` | src/iian/grammar/grammar.cpp:766-791 | one pass decides membership in the listed ranges, inverted for a negated class, and finds the end |
| `Grammars.AdvanceStack` | src/iian/grammar/grammar.cpp:861-942 | adds exactly the closure of the stack under entering rules, without duplicates |
| `GrammarEngine.AcceptChr` | src/iian/grammar/grammar.cpp:1024-1047 | adds exactly the successors of the stack for the code point |
| `GrammarEngine.StartStacks` | src/iian/grammar/grammar.cpp:1176-1196 | exactly the closure of the root's alternatives |
| `GrammarEngine.Grammar.constructor` | src/iian/grammar/grammar.cpp:1134-1212 | the stacks stand for the whole language, and there is one |
| `GrammarEngine.Grammar.Accept` | src/iian/grammar/grammar.cpp:1050-1059 | after any text the stacks accept w if and only if the root derives the text followed by w |
| `GrammarEngine.Grammar.AllowsEnd` | src/iian/grammar/grammar.cpp:1377-1383 | the empty stack is there if and only if the text is a sentence |
| `GrammarEngine.Grammar.AcceptToken` | src/iian/grammar/grammar.cpp:1508-1561 | the stacks stand for the longer text if and only if the token has a code point or no stack was finished; a stack is left exactly if one can read the token |
| `Pushdown.ResidualStart` | src/iian/grammar/grammar.cpp:1176-1196 | the start stacks are the residual of the empty text, against an independent definition of derivation |
| `Pushdown.ResidualStep` | src/iian/grammar/grammar.cpp:1050-1059 | reading a code point takes the residual of a text to that of the longer text |
| `LeftRecursion.HasLeftRecursion` | src/iian/grammar/grammar.cpp:1162-1174 | finds a cycle exactly if there is one past directly empty rules; a refused grammar is never usable; the verdict is right if and only if a cycle past empty rules comes with such a one, in particular if every empty rule is so directly |
| `LeftRecursion.Detect` | src/iian/grammar/grammar.cpp:963-1013 | what is found is a cycle; otherwise boundedly many rules are entered in a row |
| `LeftRecursion.UsableIffAcyclic` | src/iian/grammar/grammar.cpp:861-942 | expanding comes to an end on every stack if and only if no rule leads back to itself past rules that can be empty |
| `LeftRecursion.NoLeftRecursionIsUsable` | src/iian/grammar/grammar.cpp:861-942 | a bound on the rules entered in a row is enough |
| `LeftRecursion.HiddenRecursionPasses` | src/iian/grammar/grammar.cpp:974-988 | a concrete grammar the check passes and on which expanding never ends |
| `LeftRecursion.ParensUsable` | src/iian/grammar/grammar.cpp:861-942 | a recursive grammar that is usable |
| `CandidateFilter.RejectFor` | src/iian/grammar/grammar.cpp:1061-1130 | rejects exactly the candidates this stack cannot read up to their first zero |
| `CandidateFilter.RejectAll` | src/iian/grammar/grammar.cpp:944-961 | rejects exactly what no stack can read, although later stacks see only what earlier ones rejected |
| `GrammarMask.Apply` | src/iian/grammar/grammar.cpp:1370-1413 | a token is banned if and only if it was excluded before or is not allowed: ending after a sentence only, a text token only if its bytes are not empty, do not begin with a zero byte and some stack can read what they decode to up to the first zero |
| `GrammarMask.WouldAccept` | src/iian/grammar/grammar.cpp:1415-1432 | the same answer for one token |
| `GrammarMask.AgreeIffZeroFree` | src/iian/grammar/grammar.cpp:1061-1130 | filter and acceptor agree for every grammar and state if and only if the token's bytes spell something and hold no overlong zero before the first zero byte |
| `GrammarMask.OverlongDisagrees` | src/iian/grammar/grammar.cpp:1510-1512 | the bytes 61 C0 80 decode to a letter and a zero, and the two disagree about them |
| `GrammarMask.NulCuts` | src/iian/grammar/grammar.cpp:37-87 | what follows a zero byte is read neither by the filter nor by the acceptor |
| `GrammarMask.TextAgrees` | src/iian/grammar/grammar.cpp:37-87 | UTF-8 text decodes to its code points, and filter and acceptor agree about it |
| `Utf8.DecodeUtf8` | src/iian/grammar/grammar.cpp:37-87 | the code points up to the first zero byte and a zero behind them, and what is left of a character, from any start; void after an invalid byte |
| `Utf8.Streams` | src/iian/grammar/grammar.cpp:37-87 | if two pieces decode, decoding one after the other is decoding them joined, also if they are cut inside a character |
| `Utf8.TextStreams` | src/iian/grammar/grammar.cpp:37-87 | text cut anywhere, even inside a character, decodes piece by piece to its code points |
| `Utf8.RoundTrip` | src/iian/grammar/grammar.cpp:37-87 | decoding undoes the encoding of section 3 of RFC 3629 |
| `Utf8.ZeroIsOverlong` | src/iian/grammar/grammar.cpp:37-87 | a code point zero comes from an overlong zero, and only from one |
| `GrammarMask.LetThroughIffCompletable` | src/iian/grammar/grammar.cpp:944-961 | what can be completed to a sentence is let through, and if every part of the grammar derives something only that is |
| `GuidedDecoding.Draw` | src/iian/engine.cpp:672-680 | draw, ask, mask and draw again: if any token is neither excluded nor refused, so is the one drawn |
| `GuidedDecoding.AcceptImpl` | src/iian/grammar/grammar.cpp:1434-1491 | accepts exactly the allowed ones among tokens that spell something and hold no overlong zero |
| `GuidedDecoding.Guided` | src/iian/engine.cpp:672-684 | a whole constrained generation: the output can always be completed, is a sentence when it ends by itself, and breaks off only where no token left continues any sentence, which a vocabulary that can spell every completion excludes |
| `Rewriting.RewriteExact` | src/iian/grammar/grammar.cpp:468-533 | what replaces an item derives exactly the concatenations of as many of its strings as asked for |
| `Rewriting.ChainExact` | src/iian/grammar/grammar.cpp:513-530 | helper i derives up to i + 1 items |
| `Rewriting.LoopExact` | src/iian/grammar/grammar.cpp:513-530 | the self-referring helper derives any number of items |
| `Rewriting.OtherRulesKeep` | src/iian/grammar/grammar.cpp:433-438 | no other rule's language changes |
| `Rewriting.BoundsKept` | src/iian/grammar/grammar.cpp:657-663 | `{m,n}` means m to n items if and only if m <= n <= 2000 |
| `Rewriting.SymbolTable.HandleRepetitions` | src/iian/grammar/grammar.cpp:468-533 | refused exactly without an item or beyond the threshold; otherwise the rule and helpers are as above and all rules there were stay |
| `Rewriting.SymbolTable.GenerateId` | src/iian/grammar/grammar.cpp:427-431 | the name and the id are new |
| `Rewriting.SymbolTable.AddRule` | src/iian/grammar/grammar.cpp:433-438 | the rule is stored, all others stay |
| `IntRange.UniformRange` | src/iian/grammar/json_schema.cpp:93-147 | matches exactly the digit strings between two of equal length |
| `IntRange.BuildMinMax` | src/iian/grammar/json_schema.cpp:65-228 | matches exactly the numerals without leading zeros in the range if and only if the lower bound is not the negated largest value |
| `IntRange.NotNegative` | src/iian/grammar/json_schema.cpp:163-177 | the loop over digit counts covers exactly the range |
| `IntRange.LeIsVal` | src/iian/grammar/json_schema.cpp:163-177 | at equal length the order of digit strings is the order of values |
| `IntRange.AtLeast` | src/iian/grammar/json_schema.cpp:180-228 | without an upper bound any accepted numeral may have its last digit raised, so no upper limit is kept |
| `Attention.Window` | src/iian/engine.cpp:533-535 | the 256-aligned window covers every cell of the batch and stays in the cache |
| `Attention.FillKqMask` | src/iian/graph.cpp:520-548 | the mask marks exactly the cells each token attends |
| `Attention.LayerMask` | src/iian/graph.cpp:323-347 | the mask a layer reads marks exactly what the layer is to attend, and nothing of it lies outside the window |
| `Attention.PagedItem` | src/iian/paged_attn.cpp:112-145 | the kernel sums over exactly the attended cells, in context order |
| `Attention.ItemsOf` | src/iian/paged_attn.cpp:103-106 | the items of a thread are the next share of equal size, cut off at the end, which are the items it is to work on |
| `Attention.WorkedOnce` | src/iian/paged_attn.cpp:103-112 | every item has exactly one thread |
| `Attention.PairOfItem` | src/iian/paged_attn.cpp:112-116 | items and (token, head) pairs correspond |
| `GatherAttention.AttnGroups` | src/iian/graph.cpp:427-451 | groups tile the batch in order and each row of a group is a token of its sequence |
| `GatherAttention.RowOfToken` | src/iian/graph.cpp:427-451 | every token is a row of a group |
| `GatherAttention.GatherLayer` | src/iian/graph.cpp:389-425 | through gathered cells and group mask every row reaches exactly the cells its token attends |
| `BatchAttention.BuildContexts` | src/iian/engine.cpp:497-514 | positions, sequence numbers and contexts as the loop fills them |
| `BatchAttention.SameRow` | src/iian/engine.cpp:497-514 | row a of the forward pass and token a of the attention batch have the same position and context |
| `BatchAttention.StepMask` | src/iian/engine.cpp:533-535 | for a scheduled batch the mask of a layer marks exactly the cells its rows are to read |
| `BatchAttention.GlobalReadsPrefix` | src/iian/graph.cpp:520-548 | in a causal layer without a window these are the cells of the row's prefix |
| `BatchAttention.LayerReads` | src/iian/graph.cpp:327-328 | a layer of a causal model reads the last n_swa positions up to the row itself if the model has a window and flags this layer or none, and the whole prefix otherwise |
| `BatchAttention.StepPaged` | src/iian/paged_attn.cpp:112-145 | for such a layer the kernel reads the prefix cells in order, which is what the forward pass reads |
| `BatchAttention.StepGroups` | src/iian/graph.cpp:427-451 | a scheduled batch has what the grouping needs |
| `BatchAttention.StepGather` | src/iian/graph.cpp:389-425 | for a group of a scheduled batch every row of the gathered cells reaches exactly the cells its row of the forward pass is to read |
| `StopStrings.Search` | src/iian/engine.cpp:717-731 | the incremental search finds the earliest-ending stop occurrence of the whole text |
| `StopStrings.LosslessIff` | src/iian/engine.cpp:438-454 | the delivered chunks are the final text for all outputs if and only if min_tokens is at most one |
| `StopStrings.NeverTakenBack` | src/iian/engine.cpp:438-454 | then nothing sent is ever missing from the final text |
| `StopStrings.NewMatchIsHeldBack` | src/iian/engine.cpp:440-443 | a new match starts in what was held back |
| `StopStrings.TextStream.Take` | src/iian/engine.cpp:709-731 | a token's text is added; unless the token ends the request, with enough tokens and a stop string in the whole text the request stops and the text is cut at the occurrence that ends first: before it, or behind it if stop strings are kept |
| `StopStrings.AddIsRight` | src/iian/engine.cpp:709-731 | the same for the specification over whole texts |
| `StopStrings.StoppedRight` | src/iian/engine.cpp:717-731 | the text of a request that was stopped by no token of its own holds no stop string if those are not kept; otherwise it ends with one, none ends earlier, and of those that end there it is the first listed |
| `StopStrings.TextStream.DeliverText` | src/iian/engine.cpp:438-454 | everything but the held-back tail goes out, once |
| `StopStrings.DeliverIsRight` | src/iian/engine.cpp:438-454 | after a delivery all text has been sent but the held-back tail |
| `StopStrings.HoldbackExact` | src/iian/engine.cpp:440-443 | which is no longer than some stop string may still need |
| `StopStrings.TextStream.FinishText` | src/iian/engine.cpp:416-419 | the rest goes out |
| `Detokenizer.CompletePrefix` | src/iian/tokenizer/detokenizer.cpp:26-60 | stops where a sequence not yet complete begins, or at the end if none does; at most three bytes remain |
| `Detokenizer.PrefixStays` | src/iian/tokenizer/detokenizer.cpp:69-81 | emitting a complete prefix early moves no later boundary |
| `Detokenizer.PushAll` | src/iian/tokenizer/detokenizer.cpp:69-81 | for any pieces, what is emitted and what is held back make up the bytes pushed, and the cut is at their complete prefix |
| `Detokenizer.SplitDoesNotMatter` | src/iian/tokenizer/detokenizer.cpp:69-81 | so two ways to cut the same bytes into pieces emit the same text and hold the same bytes back |
| `Detokenizer.IncrementalDetokenizer.Push` | src/iian/tokenizer/detokenizer.cpp:69-81 | what has been emitted is the complete prefix of all bytes pushed |
| `Detokenizer.IncrementalDetokenizer.Finish` | src/iian/tokenizer/detokenizer.cpp:83-89 | emits exactly the remainder |
| `Detokenizer.LeadBytes` | src/iian/tokenizer/detokenizer.cpp:11-17 | lead bytes as in section 4 of RFC 3629 |
| `BucketSort.SortDesc` | src/iian/sampler.cpp:36-57 | the permutation ordered by descending value and ascending id, whichever path is taken |
| `BucketSort.BucketsInOrder` | src/iian/sampler.cpp:44-51 | what comes first is not in a later bucket |
| `BucketSort.Scatter` | src/iian/sampler.cpp:53-54 | every bucket's part holds exactly its ids in input order |
| `Selection.SortedUnique` | src/iian/sampler.cpp:37 | there is only one such order |
| `Selection.TopK` | src/iian/vec_math.h:108-121 | the insertion buffer ends as the first k of that order |
| `Selection.RankingRanks` | src/iian/vec_math.h:106-107 | that order holds every id once, best first, ties by lower id |
| `Selection.RanksUnique` | src/iian/vec_math.h:106-107 | and is the only one that does |

## Left out

- The graph computation, model loading, float rounding and alibi: logits are a function of the attended KV entries, scores are real numbers.
- Sampling internals and chat templates: the sampler is a function with its own state, applied in the order of the source.
- Exceptions from the graph computation and engine shutdown, which fail or abort every request at once.
- Embedding requests: their pooling is accumulated per chunk and is not reset by preemption.
- TOKEN grammar elements, lazy triggers, and tokens that begin or end inside a character: the mask and the acceptor are modelled for tokens that decode to whole code points; the decoder itself is modelled for all.
- Parsing of grammar text and of JSON schemas other than integer ranges; a range without a lower bound, and the exact language of a range without an upper one.
- How drafts are made (n-gram lookup, draft model): drafts are arbitrary tokens.
- A waiting bound under the priority policy: later arrivals of higher priority may always come first.
- Threads, locks, queues between threads, the HTTP server, the command line, statistics and logging.
- IntRange.AtLeast: states only that the last digit may be raised, which is what refutes exactness; its numerals are capped at 16 digits and drop leading zeros below the top level. For a bound of 16 digits or more it emits braces with a minimum above the maximum, which are taken here to match nothing; by Rewriting.BoundsKept the grammar parser does not take them so.
- GuidedDecoding.Guided: for tokens without overlong zeros; one with them is covered by GrammarMask.AgreeIffZeroFree. A token that spells nothing ends the modelled run, as it is drawn only where nothing is left to draw.
