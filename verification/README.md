# Verified models of the GLM-5.3 serving algorithms

This project models the algorithms of the serving recipe that carry state, concurrency or arithmetic, and proves what
their code and documentation promise of them. Each component is one or a few modules; `dafny verify dfyconfig.toml`
checks all of them.

- **Four-rank all-reduce** (`AllReduce*.dfy`). A state machine of four ranks with their blocks, doorbells, proxies and
  lanes, over any number of launches. One step is one block's share of one chunk in one round, one arrival at a staging
  counter, one flag wait that times out, one proxy post, or one lane delivering a payload or a flag; every interleaving
  is a run. Sequence numbers, slots and flag words are 32 bits wide and wrap. Addition and rounding are uninterpreted
  functions, so that the result depends on the canonical order and not on commutativity, and which block owns a pack and
  which lane carries it are arbitrary. A proxy posts the doorbells in order, and each lane delivers the payload of a
  sequence before its flag. The results: the invariant of every run with or without timeouts, the canonical output, the
  entry barrier, free slots, progress, finite runs. A finished output is canonical as far as the blocks of the second
  neighbour passed the poison test before their round 2 sum. The second doorbell looks only at the first exchange's error
  word (line 210 of `_lean_cute.py`), while the poison word, which a round 3 timeout also sets, makes blocks that are
  still in round 2 skip their sums; such a chunk is rung with what its slot held before, and that takes the place of the
  pair sum. `AllReduceTimeout` gives a run: a neighbour without any error advances its epoch over a wrong output. Earlier
  launches, chunks already summed and round 2 timeouts are unaffected.
- **KDA prefill recurrence** (`KdaWindows`, `KdaRecurrence`, `KdaPrefill`, `KdaOutcome`, `KdaKernel`). The tables the prologue builds
  are specified by what the kernel's comments say of them; the tile mathematics is an uninterpreted step. The rows of
  each window run in any order. The kernel resumes from the final slot without asking whether it is the null
  slot, so that a sequence without a final slot restarts from the null slot's content at every window that starts in its
  middle. The running state says what every slot then holds, and the lemmas say exactly when that is the fold.
- **KDA pipeline** (`KdaPipeline`, `KdaStages`). The host's calls, the two streams with events, the record ring, and the
  barrier-guarded stage ring inside a thread block, each in every interleaving. One stage would do as well as two.
- **Short causal convolution** (`CausalConv`, `Checkpoints`). Tiles with a halo, the state update, the exported history.
- **Deterministic top-k and the row split** (`TopK`, `TopKKernels`, `RowSplit`). Programs over arrays in any order on both
  paths. Scores are integers with a greatest value standing for infinity. With no columns nothing is launched and the
  output keeps what it held.
- **Scheduling** (`FairPrefill`, `Cadence`, `Bridge`, `Saturation`, `Policy`). The objects with their fields, proved
  against functions on their states, and the fairness and growth claims over whole runs of those functions. The
  `...Promises` modules beside these and the next components say what those functions mean without naming them: the
  greatest grant that fits, exactly when a turn is prefill-only, the law of a plan, what a mask keeps.
- **Boundary planner and registry** (`Planner`, `Registry`). The planner against the separate validation; the registry
  with its block pool in every run. The pool is a set of (hash, block) pairs with a primary hash per block; removing a
  block's cached hashes removes all its pairs. A move the registry does not know is declined without a trace: a block it
  lands on keeps its tag, so that only the pool can tell.
- **UTF-8 guard** (`Utf8`, `Utf8Guard`). The decoder against section 4 of RFC 3629, the four-token window, masking and
  folding on rows of non-negative masses, with zero for a masked logit. The list a boundary row is struck at in mode 2
  is padded with id 0 when no token is invalid at a boundary, and the pad counts as an entry, so that a vocabulary
  without an invalid token loses id 0 in every boundary row.
- **Greedy verification** (`GreedyVerify`). The sharded argmax and lossless acceptance. A conversion to a 32-bit float is
  an uninterpreted function that is exact up to 2^24.
- **MoE decode routes** (`MoeRoutes`, `MoeKernel`). The route table with the fast path's tile of 16 rows. The packed word
  is a signed 32-bit word: a tile base of 2^15 or more does not come back, although the kernel's own limits allow it. The
  table is right if and only if every expert with a route begins below that; then alone are the task slots it publishes
  slots of the list, which is why the publishing method asks for it.

`Arithmetic.dfy` holds the division facts several components share.

## Model

| member | source | states |
|---|---|---|
| AllReduceSafety.RunInvariant | src/tp4/glm53_lean_allreduce/_lean_cute.py:145-259 | in every interleaving of the four ranks, their blocks, proxies and lanes, with or without timeouts, every reachable state satisfies the protocol invariant (counters, bells, slot contents, handed sequences, outputs) |
| AllReduceTheorems.FinishedOutputsAreCanonical | src/tp4/glm53_lean_allreduce/_lean_cute.py:171-249 | every pack of every launch a rank has finished is the two rounded pair adds of the four inputs in rank order, the same expression on every rank, in every interleaving and after any timeouts, if the block of the second neighbour that owns the pack made its pair sum |
| AllReduceTheorems.SkippedOutputsAreStale | src/tp4/glm53_lean_allreduce/_lean_cute.py:185-249 | the other half: where that block skipped its sum on the poison word, the finished output is the rank's own pair sum with what the neighbour's slot held at every earlier point of the neighbour's launch |
| AllReduceTheorems.NoRound3TimeoutIsEnough | src/tp4/glm53_lean_allreduce/_lean_cute.py:171-249 | a rank without a round 3 timeout has summed all it rang for, so that its neighbour's finished outputs are canonical, round 2 timeouts anywhere notwithstanding |
| AllReduceTimeout.UnsummedChunkIsTaken | src/tp4/glm53_lean_allreduce/_lean_cute.py:185-215 | the skipped case happens: from every initial state of a two-block launch a run leads to a rank that has no error, has advanced its epoch and holds its neighbour's stale slot in place of the pair sum |
| AllReduceTimeout.FinishedOutputCanBeWrong | src/tp4/glm53_lean_allreduce/_lean_cute.py:185-259 | from zeroed slots that rank ends with 2 where the canonical reduction is 4 |
| AllReduceTheorems.EntryBarrier | src/tp4/glm53_lean_allreduce/_lean_cute.py:145-249 | no rank hands out a sum of a launch before all four ranks have entered that launch |
| AllReduceTheorems.SlotIsFree | src/tp4/glm53_lean_allreduce/_lean_cute.py:55-56 | with at least 2 x chunks slots, a slot and its flag word are reused only after both lanes delivered, and every block of the receiver has consumed, the slot's previous sequence |
| AllReduceTheorems.EpochNeedsSuccess | src/tp4/glm53_lean_allreduce/_lean_cute.py:251-259 | the epoch moves only at the last block's tail, with every block finished and no error in either exchange, and then by the launch's chunks |
| AllReduceTheorems.ProxyKeepsUp | src/tp4/glm53_lean_allreduce/_roce_proxy.c:1015-1065 | the proxy never has more doorbells pending than there are slots and posts each sequence with its own size |
| AllReduceFrame.NothingBeyond | src/tp4/glm53_lean_allreduce/_lean_cute.py:154-249 | no step of any run writes past the end of a chunk: neither an output nor a slot beyond the longest chunk that uses it |
| AllReduceSafety.WaitFirst | src/tp4/glm53_lean_allreduce/_lean_cute.py:181-198 | a first-neighbour flag that matches means that neighbour's chunk of that exact sequence lies in the slot |
| AllReduceSafety.WaitSecond | src/tp4/glm53_lean_allreduce/_lean_cute.py:226-243 | the same for the second neighbour, block by block: the slot holds every pair sum the block made, and where it skipped one, what lies in the neighbour's slot |
| AllReduceSafety.EmitValue | src/tp4/glm53_lean_allreduce/_lean_cute.py:233-249 | what round 3 stores is the rank's pair sum with what the neighbour had for the pack, and the canonical sum if the neighbour had summed it |
| AllReduceSafety.Preserved | src/tp4/glm53_lean_allreduce/_lean_cute.py:145-259 | every enabled step of any rank keeps the invariant of the whole cluster |
| AllReduceInvariant.Lag | src/tp4/glm53_lean_allreduce/_lean_cute.py:145-259 | no rank is ever more than one launch ahead of another |
| AllReduceInvariant.Lap | src/tp4/glm53_lean_allreduce/_lean_cute.py:55-56 | the slot bound in numbers: a rank's launch ends within one round of slots of what both receivers have been handed |
| AllReduceInvariant.MatchedIff | src/tp4/glm53_lean_allreduce/_lean_cute.py:181-184 | a flag word equals the awaited 32-bit sequence exactly when that sequence has been delivered, wrap-around included |
| AllReduce.SlotReuse | src/tp4/glm53_lean_allreduce/_lean_cute.py:153 | a slot's earlier sequence never reads as its next one, also across the 32-bit wrap |
| AllReduce.SlotIsModulo | src/tp4/glm53_lean_allreduce/_lean_cute.py:132 | masking the 32-bit sequence is the remainder modulo the slots |
| AllReduceProgress.NeverStuck | src/tp4/glm53_lean_allreduce/_lean_cute.py:145-259 | without poison some step stays enabled until every rank has finished every launch |
| AllReduceProgress.StoppedRunsAreComplete | src/tp4/glm53_lean_allreduce/_lean_cute.py:145-259 | a run that cannot go on without a timeout has completed every launch on every rank |
| AllReduceProgress.RunsAreFinite | src/tp4/glm53_lean_allreduce/_lean_cute.py:145-259 | every run takes at most a bound of steps computed from launches, blocks and chunks |
| KdaWindows.PlanStartsAtCut | src/tp4/glm53_kda_ckpt.py:388-424 | the rank and first tile a row takes from the window table are exactly where the windows before left that rank, and no other row gets it |
| KdaWindows.PlanFindsRank | src/tp4/glm53_kda_ckpt.py:388-408 | every rank with a tile in a window is planned on one of the first min(window tiles, sequences) rows |
| KdaWindows.EachTileOnce | src/tp4/glm53_kda_ckpt.py:388-424 | every (sequence, tile) is run by exactly one row of exactly one window |
| KdaWindows.CutsGrow | src/tp4/glm53_kda_ckpt.py:465-488 | a rank's tiles of one window continue those of the window before and fit the staged bands |
| KdaWindows.PositionsDistinct | src/tp4/glm53_kda_ckpt.py:388-401 | distinct tiles have distinct positions |
| KdaWindows.PositionsFilled | src/tp4/glm53_kda_ckpt.py:388-401 | every position before the total holds a tile |
| KdaRecurrence.RunTilesFolds | src/tp4/glm53_kda_ckpt.py:570-589 | a run of tiles within one window leaves the running state after them, with every checkpoint that became due holding the running state of its offset |
| KdaRecurrence.StoreExportsHold | src/tp4/glm53_kda_ckpt.py:802-817 | after a tile exactly the checkpoints ending there are stored and no other slot changes |
| KdaRecurrence.RunRankKept | src/tp4/glm53_kda_ckpt.py:571-823 | a row takes its sequence's slots from where the window begins to where the next begins, resuming through the final slot, the null slot included |
| KdaRecurrence.RowKept | src/tp4/glm53_kda_ckpt.py:388-849 | one more row of a window, in any order, keeps the invariant of all slots |
| KdaRecurrence.CopyEmptyKept | src/tp4/glm53_kda_ckpt.py:824-849 | sequences without tiles get their initial state in their final slot; CallOutcome names that state |
| KdaPrefill.WindowKept | src/tp4/glm53_kda_ckpt.py:388-849 | a whole window, its rows in any order, moves every rank to where the next window begins |
| KdaPrefill.WindowsFold | src/tp4/glm53_kda_ckpt.py:388-849 | after any number of windows each final slot holds the fold of the tiles run so far and each due checkpoint the running state of its offset |
| KdaPrefill.PrefillFolds | src/tp4/glm53_kda_ckpt.py:388-849 | after the call each final slot holds the fold over all tiles of its sequence and each checkpoint slot the running state of its first offset / 16 tiles, for every sequence; FoldIsTileFold says from which state the fold starts |
| KdaPrefill.CheckpointHoldsFold | src/tp4/glm53_kda_ckpt.py:570-823 | a due checkpoint slot ends with the fold of the tiles before its offset if its sequence has a final slot or no window starts strictly inside those tiles |
| KdaPrefill.UnownedUnchanged | src/tp4/glm53_kda_ckpt.py:23-29 | slots that no sequence writes are unchanged |
| KdaPrefill.OrderIrrelevant | src/tp4/glm53_kda_ckpt.py:388-849 | the order of the rows within the windows makes no difference to any slot, for every call |
| KdaPrefill.NullFinalLosesState | src/tp4/glm53_kda_ckpt.py:571-589 | and otherwise: without a final slot and with a window that starts strictly inside those tiles, the checkpoint slot ends with only the tiles from the last such window on, added to what the null slot held |
| KdaPrefill.StateIsLost | src/tp4/glm53_kda_ckpt.py:571-589 | a concrete call of two tiles whose checkpoint ends as 8 where the fold is 2 |
| KdaKernel.FindEnd | src/tp4/glm53_kda_ckpt.py:465-488 | the binary search over the staged bands finds the end of the rank's tiles in the window |
| KdaKernel.RunRankTiles | src/tp4/glm53_kda_ckpt.py:570-823 | the tile loop on the state slots in place equals the specified run, from the loaded initial or final slot to the checkpoints and the final store |
| KdaKernel.Prefill | src/tp4/glm53_kda_ckpt.py:373-849 | all windows on the state slots in place, with the outcome of CallOutcome for every sequence and all other slots as before; a failed metadata check writes no state |
| KdaOutcome.CallOutcome | src/tp4/glm53_kda_ckpt.py:570-849 | sequence by sequence: the final slot ends with all tiles added to what the caller left in the initial slot, or to zero if that is the null slot, an empty sequence included; a checkpoint slot ends with the tiles before its offset added to the same, and keeps its content if its offset ends nowhere in the sequence |
| KdaOutcome.ElsewhereUnchanged | src/tp4/glm53_kda_ckpt.py:802-849 | the null slot and every slot no sequence names as final or as a checkpoint end as they began |
| KdaOutcome.FoldIsTileFold | src/tp4/glm53_kda_ckpt.py:570-589 | the fold the other theorems speak of is the tiles of the sequence added one by one to the content of its initial slot, or to zero |
| KdaOutcome.TilesHoldRows | src/tp4/glm53_kda_ckpt.py:420-423 | the tiles hold all rows of a sequence below the capacity, the last one at least one row, and no more than the capacity above it |
| KdaPipeline.RunPrefill | src/tp4/glm53_kda_ckpt.py:1007-1043 | the host's loop issues exactly the closed-form sequence of waits, launches and records, for any number of windows |
| KdaPipeline.WaitsAreRecorded | src/tp4/glm53_kda_ckpt.py:1026-1043 | every event waited on was recorded before, by the stream that produces it |
| KdaPipeline.RunInvariant | src/tp4/glm53_kda_ckpt.py:1026-1043 | the invariant of the two streams and the ring in every interleaving |
| KdaPipeline.RecurrenceReadsItsWindow | src/tp4/glm53_kda_ckpt.py:493-494 | while the recurrence of a window runs its half of the ring holds exactly what that window's prepare published |
| KdaPipeline.NoOverwrite | src/tp4/glm53_kda_ckpt.py:1026-1031 | no half is written before the recurrence two windows back has finished |
| KdaPipeline.RecurrenceReadsItsTile | src/tp4/glm53_kda_conv.py:387-388 | the ring index the recurrence computes is the one the prepare kernel wrote, and the record there was made from that very tile |
| KdaPipeline.NeverStuck | src/tp4/glm53_kda_ckpt.py:1026-1043 | the two streams never deadlock |
| KdaPipelineProgress.RunsAreFinite | src/tp4/glm53_kda_ckpt.py:1007-1043 | every run of the streams takes at most a number of steps computed from the windows and their tiles |
| KdaPipelineProgress.StoppedRunsAreComplete | src/tp4/glm53_kda_ckpt.py:1007-1043 | a run that cannot go on has run every call, and on the way the prepare kernel and the recurrence of every window |
| KdaPipelineProgress.EveryWindowIsLaunched | src/tp4/glm53_kda_ckpt.py:1007-1043 | among the host's calls each window has one prepare kernel and one recurrence, and no other window has any |
| KdaPipelineProgress.NextPrepareIsFree | src/tp4/glm53_kda_ckpt.py:1026-1043 | the streams overlap: while the recurrence of a window runs, nothing holds back the prepare kernel of the next |
| KdaStages.IssueNeedsRelease | src/tp4/glm53_kda_ckpt.py:461-464 | the producer's parity wait passes exactly when every MMA warp has released the stage's previous tile |
| KdaStages.AcquireNeedsCopy | src/tp4/glm53_kda_ckpt.py:600-601 | a warp's parity wait passes exactly when its copy has landed, and then the stage holds that tile |
| KdaStages.StepKept | src/tp4/glm53_kda_ckpt.py:497-554 | every step of producer, copies and warps keeps the barrier invariant |
| KdaStages.WarpsReadTheirTiles | src/tp4/glm53_kda_ckpt.py:568-601 | a warp that reads its k-th tile reads the producer's k-th copy, complete and still in place |
| KdaStages.NoEarlyRefill | src/tp4/glm53_kda_ckpt.py:797-803 | no stage is refilled before every MMA warp has finished all earlier tiles of it |
| KdaStages.NeverStuck | src/tp4/glm53_kda_ckpt.py:497-554 | until every warp has consumed every tile some step is enabled |
| KdaStagesProgress.StoppedRunsAreComplete | src/tp4/glm53_kda_ckpt.py:497-803 | a run that cannot go on has copied every tile and had every warp consume it, in exactly 2 x tiles x (warps + 1) steps |
| KdaStagesProgress.RunsAreFinite | src/tp4/glm53_kda_ckpt.py:497-803 | no run takes more steps |
| KdaStagesProgress.EveryTileIsRead | src/tp4/glm53_kda_ckpt.py:568-601 | before its count passes a tile a warp has been reading that tile |
| Checkpoints.MakeCheckpoints | src/tp4/glm53_kda_ckpt.py:1096-1132 | the builder fails exactly on a bad count, offset or slot, or on a checkpoint whose conv rows are wanted without the sequences' first rows, and otherwise pads the tables and lists three conv rows per checkpoint, or none |
| Checkpoints.GoodLists | src/tp4/glm53_kda_ckpt.py:1104-1123 | what the builder accepts, entry by entry: positive multiples of 16, slots other than the null slot and distinct within a sequence, at most the given number |
| Checkpoints.PaddedTables | src/tp4/glm53_kda_ckpt.py:1104-1124 | the tables hold the entries in order and then the null slot and offset 0 |
| Checkpoints.CopyAt | src/tp4/glm53_kda_ckpt.py:1120-1126 | the copies of a checkpoint are the three rows before its offset, in order |
| CausalConv.TapsAreDirect | src/tp4/glm53_kda_conv.py:260-336 | four staged rows, halo and zero fill included, make the direct convolution's output of their row |
| CausalConv.ConvChunk | src/tp4/glm53_kda_conv.py:260-336 | the tiles of a chunk in any order are the direct convolution over old rows and new ones |
| CausalConv.NewState | src/tp4/glm53_kda_conv.py:545-560 | the state kernel's selection is the last three of the old rows and the chunk's |
| CausalConv.UpdateComposes | src/tp4/glm53_kda_conv.py:545-563 | update(update(s, a), b) == update(s, a ++ b) for all lengths |
| CausalConv.DirectComposes | src/tp4/glm53_kda_conv.py:11-21 | splitting a chunk changes no output when the second part starts from the first part's state |
| CausalConv.ExportIsState | src/tp4/glm53_kda_ckpt.py:1000-1005 | the exported history of a checkpoint is the state a chunk ending at its offset would store |
| CausalConv.UpdateStates | src/tp4/glm53_kda_conv.py:535-563 | sequences in any order: every final slot becomes the update of its own sequence's starting state, other slots stay |
| CausalConv.ExportHistories | src/tp4/glm53_kda_ckpt.py:1000-1005 | every checkpoint slot ends with the history of its offset |
| TopK.FewAbove | src/tp4/deterministic_sparse_topk.py:55-59 | fewer columns than places lie above the threshold of any exact selection |
| TopK.KeepIsBest | src/tp4/deterministic_sparse_topk.py:117-124 | the kept columns are exactly the k best, lower indices winning ties, whichever exact selection gave the threshold |
| TopK.CountKept | src/tp4/deterministic_sparse_topk.py:115-124 | the number kept so far is the count above plus the ties so far, capped by the tie slots |
| TopK.KeptFillsRow | src/tp4/deterministic_sparse_topk.py:115-130 | as many columns are kept as there are places or columns |
| TopK.CanonAt | src/tp4/deterministic_sparse_topk.py:123-130 | each kept column's place in the canonical list is the number kept before it, and the rest is -1 |
| TopK.ListedAscends | src/tp4/deterministic_sparse_topk.py:1-6 | the canonical list is strictly ascending with exactly the best columns in it |
| TopKKernels.LeastPicked | src/tp4/deterministic_sparse_topk.py:55-59 | the minimum over the picks, masked ones reading as inf |
| TopKKernels.CountTile | src/tp4/deterministic_sparse_topk.py:62-68 | a program stores the numbers of its tile's columns above and at the threshold, and writes nothing else |
| TopKKernels.CountAll | src/tp4/deterministic_sparse_topk.py:48-68 | the fused first pass in any order of its programs |
| TopKKernels.CountLive | src/tp4/deterministic_sparse_topk.py:72-100 | the threshold pass and the skipping counts, whatever the skipped tiles' counts hold |
| TopKKernels.SumTiles | src/tp4/deterministic_sparse_topk.py:145-150 | the sums over the tiles that ran are those over all tiles |
| TopKKernels.Scatter | src/tp4/deterministic_sparse_topk.py:103-163 | one program writes only canonical values, all of its own places and no others |
| TopKKernels.WritesAreDisjoint | src/tp4/deterministic_sparse_topk.py:123-163 | no place of a row is written by the programs of two tiles, and none a kept column goes to lies in the tail that tile 0 fills |
| TopKKernels.CanonicalizeTopK | src/tp4/deterministic_sparse_topk.py:166-191 | on both paths, in any program order and with any uninitialized counts, every row becomes its canonical selection |
| RowSplit.PartitionCovers | src/tp4/glm53_indexer_rowsplit.py:90-104 | the shares have one tile-aligned extent, and every row lies in exactly one of them and at its own place in the gathered buffer |
| RowSplit.LocalSelect | src/tp4/glm53_indexer_rowsplit.py:174-184 | a rank's buffer holds its rows' canonical selections, then -1, whichever kernel path its row count takes |
| RowSplit.SplitEqualsFull | src/tp4/glm53_indexer_rowsplit.py:123-137 | the gathered buffers are the full selection row for row |
| FairPrefill.AllowanceIsBounded | src/tp2/glm53_speedup/fair_prefill.py:78-86 | a positive allowance fits both budgets and stops at a block boundary or the request's end; AllowanceIsGreatest is the other bound |
| FairPromises.AllowanceIsGreatest | src/tp2/glm53_speedup/fair_prefill.py:78-85 | the allowance is zero or fits, and no number of tokens that fits is greater: within the tokens, with its draft slots within the scratch, ending at a block boundary or at the request's end |
| FairPromises.PlannedGrantsAreGreedy | src/tp2/glm53_speedup/fair_prefill.py:66-117 | in the order of the offers each grant is the greatest that fits what the earlier grants left of the cap, the step beside the decode reserve and the scratch, or zero if nothing fits |
| FairPromises.PrefillsAre | src/tp2/glm53_speedup/fair_prefill.py:44-56 | the prefills of a turn are the running ones and then the first ready waiting ones, skipped ones first, as many as there are free places |
| FairPromises.QueueIsFirstCome | src/tp2/glm53_speedup/fair_prefill.py:57-60 | the queue keeps the order of those that waited and appends new ones in theirs |
| FairPromises.OffersAreOrdered | src/tp2/glm53_speedup/fair_prefill.py:91-107 | aged long requests are offered first, then short tails, then the rest, each class in queue order |
| FairPromises.PlannedIs | src/tp2/glm53_speedup/fair_prefill.py:31-70 | what a plan makes of the queue, the debts, the eligible requests and the reserve, in a turn without a cap, with one prefill alone and in a contended one |
| FairPromises.ReasonIs | src/tp2/glm53_speedup/fair_prefill.py:65-106 | the reason a contended turn reports: whether it has a short tail, and then whether a bypassed long request goes before |
| FairPrefill.PlannedGrantsFit | src/tp2/glm53_speedup/fair_prefill.py:66-117 | together the grants of a contended turn fit the cap, the step beside the decode reserve and the scratch; PlannedGrantsAreGreedy says how great each one is |
| FairPrefill.PlannedTable | src/tp2/glm53_speedup/fair_prefill.py:104-117 | every queued request has exactly the grant the order gave it |
| FairPrefill.FirstAgedIsGranted | src/tp2/glm53_speedup/fair_prefill.py:104-117 | the first aged long request is granted whatever short tails arrived |
| FairPrefill.UngrantedMovesUp | src/tp2/glm53_speedup/fair_prefill.py:136-148 | a contended turn without a grant ages an eligible long request and, once aged, brings it forward |
| FairPrefill.NoStarvation | src/tp2/glm53_speedup/fair_prefill.py:58-148 | an eligible long request with q requests ahead is granted within q + 2 observed contended turns, whatever decode-only turns, and turns in which it is alone and gets nothing, lie between |
| FairPrefill.FairPrefill.Plan | src/tp2/glm53_speedup/fair_prefill.py:31-117 | the planning loops leave exactly the queue, debts and grants that PlannedIs, OffersAreOrdered and PlannedGrantsAreGreedy determine; a bad cap changes nothing |
| FairPrefill.FairPrefill.DeferForDecode | src/tp2/glm53_speedup/fair_prefill.py:119-129 | a decode-only turn clears the offers and keeps queue and debts |
| FairPrefill.FairPrefill.Observe | src/tp2/glm53_speedup/fair_prefill.py:136-148 | offers go to the back, bypassed long requests gain a debt |
| FairPromises.ObservedIs | src/tp2/glm53_speedup/fair_prefill.py:136-148 | a queued request owes or is owed after a turn exactly as it was served, bypassed or eligible, and nothing else of the queue's membership or the offers changes |
| FairPromises.ObservedOrder | src/tp2/glm53_speedup/fair_prefill.py:141-148 | offered requests go behind the others, both in their old order |
| Cadence.ScanContent | src/tp2/glm53_speedup/cadence.py:56-62 | the backward scan agrees with the specification: some token follows the first end of thinking |
| Cadence.PrefillIsRepaid | src/tp2/glm53_speedup/cadence.py:100-121 | after a prefill-only turn every turn is decode-only until each of its decoders got tokens or stopped being one |
| Cadence.OneRepayPerWave | src/tp2/glm53_speedup/cadence.py:81-87 | between two first-token turns a new decoder appeared |
| Cadence.BurstIsBounded | src/tp2/glm53_speedup/cadence.py:135-147 | at most N first-content turns fall between two prefill-only turns while a prefill runs |
| Cadence.NextCapped | src/tp2/glm53_speedup/cadence.py:88-98 | the run counter and every decoder's count stay within the setting |
| Cadence.TurnsAreExclusive | src/tp2/glm53_speedup/cadence.py:154-158 | a decode-only turn schedules no prefill and a prefill-only turn no decoder |
| Cadence.SplitCadence.Begin | src/tp2/glm53_speedup/cadence.py:100-152 | the object after choosing a turn is the specified next state, whose phase and reason BegunIs determines and whose debts BegunDebts does |
| CadencePromises.BegunIs | src/tp2/glm53_speedup/cadence.py:100-152 | exactly when a turn is prefill-only, decode-only or mixed, and for which reason: a prefill-only turn needs no waiter, no owed decoder and one clean running original prompt that even a whole cap leaves unfinished beside a decoder |
| CadencePromises.LastChunkIsNeverGated | src/tp2/glm53_speedup/cadence.py:125-152 | a prefill-only turn lets one request run, and whatever it is given within the cap leaves its prompt unfinished |
| CadencePromises.BegunDebts | src/tp2/glm53_speedup/cadence.py:81-110 | which decoders are owed a turn, a first token or a first content at the start of a turn, and how far the burst has run |
| Cadence.SplitCadence.Observe | src/tp2/glm53_speedup/cadence.py:160-180 | the object after settling a turn is the specified next state: served decoders leave the debts, a first-content burst counts |
| CadencePromises.ObservedDebts | src/tp2/glm53_speedup/cadence.py:160-180 | every debt after a turn, from the phase, the reason and the counts |
| Bridge.DecodeRunKeepsFair | src/tp2/glm53_speedup/scheduler.py:482-489 | any run of decode-only turns leaves the fair queue and debts exactly as they were and every offer empty |
| Bridge.NoStarvation | src/tp2/glm53_speedup/scheduler.py:475-495 | the composition with the cadence costs a waiting long prefill none of its turns |
| Bridge.SchedulerBridge.RunTurn | src/tp2/glm53_speedup/scheduler.py:377-385 | a whole turn of the two objects is the composed step; a decode-only one leaves the object's queue and debts as they were |
| BridgePromises.LastChunkIsNeverRun | src/tp2/glm53_speedup/scheduler.py:450-494 | cadence and fair grants together: in a prefill-only turn no number of tokens offered lets the prompt's last chunk run, if and only if there is a cap |
| BridgePromises.PrefillTurnIsAlone | src/tp2/glm53_speedup/scheduler.py:481-494 | without debts a bridged turn is prefill-only exactly when nobody waits in either queue and one unfinished original prompt runs beside a decoder |
| BridgePromises.TurnLimits | src/tp2/glm53_speedup/scheduler.py:450-457 | what each request may get: no prefill in a decode-only turn, no decoder in a prefill-only one, and a prefill otherwise at most its grant |
| BridgePromises.GrantWithinCap | src/tp2/glm53_speedup/fair_prefill.py:107-117 | no request of a contended turn is granted more than the cap |
| Saturation.HistoryKept | src/tp2/glm53_speedup/policy.py:293-344 | the growth invariant after any history of turns, observations and resets |
| Saturation.GrowthIsEarned | src/tp2/glm53_speedup/policy.py:301-327 | the cap stays in 4..7 and grows by one only after eight turns of an unchanged batch at a baseline of at least 4, each member observed exactly once with everything accepted at that cap |
| Saturation.FailureReturnsTo4 | src/tp2/glm53_speedup/policy.py:329-344 | above 4 a missing, duplicate or short observation costs the next turn the cap |
| SaturationPromises.GrowthLaw | src/tp2/glm53_speedup/policy.py:301-327 | the cap grows if and only if it is below 7, the baseline is at least 4 and the last eight turns of this batch were full at the cap to be left |
| SaturationPromises.CapLaw | src/tp2/glm53_speedup/policy.py:293-344 | the cap of a turn from the one before: 4 after a changed batch, a short baseline or, above 4, a failed member; one more after eight full turns; else unchanged |
| SaturationPromises.FreshRunsAt4 | src/tp2/glm53_speedup/policy.py:275-300 | a first turn, and one after a reset, runs at 4 |
| SaturationPromises.LengthLaw | src/tp2/glm53_speedup/policy.py:301-327 | the length chosen is a short baseline as it is, and the cap from 4 on |
| SaturationPromises.ObservedIs | src/tp2/glm53_speedup/policy.py:329-344 | what one observation does to the cap, to what is awaited and to the streak of every member |
| SaturationPromises.ChosenIs | src/tp2/glm53_speedup/policy.py:301-327 | what one choice does to the same, growth and the loss of all evidence included |
| Saturation.SaturationGrowth.Choose | src/tp2/glm53_speedup/policy.py:301-327 | the object and the length returned are the specified ones, and growth is reported exactly when the cap grew |
| Saturation.SaturationGrowth.Observe | src/tp2/glm53_speedup/policy.py:329-344 | the object after one observation is the state GrowthIsEarned and FailureReturnsTo4 are about, duplicates and strangers included |
| Policy.NativeIsCaptured | src/tp2/glm53_speedup/policy.py:52-57 | the native length is captured at every concurrency |
| Policy.ShapesAre | src/tp2/glm53_speedup/policy.py:52-57 | what is captured, shape by shape: the native length at every concurrency and the others where the scope reaches |
| Policy.Round | src/tp2/glm53_speedup/policy.py:461-462 | the first captured length in their order that is at least the desired one |
| Policy.FourTurnsMove | src/tp2/glm53_speedup/policy.py:463-471 | over any run the length in use moves to another one exactly when the last four turns asked for that one |
| Policy.CountIsRun | src/tp2/glm53_speedup/policy.py:463-471 | the hysteresis count is the length of the run of equal requests for a length not in use, and stays below four |
| Policy.Base.Longest | src/tp2/glm53_speedup/policy.py:452-453 | one more than the longest acceptance of the members, rounded up, between 1 and the native length |
| Policy.Base.Steer | src/tp2/glm53_speedup/policy.py:461-471 | a length is rounded up to the least captured one and put through the hysteresis |
| Policy.Base.Choose | src/tp2/glm53_speedup/policy.py:419-472 | every shape is captured; out of scope the native length and nothing learned; forced, that length; a short history or every 16th turn, the native length; else the length in use once the hysteresis has seen what the members ask for |
| Policy.Extended.Choose | src/tp2/glm53_speedup/policy.py:424-434 | every shape is captured; the length is the four-token baseline's below 4 and the grown cap from there, and mixed turns reset the growth |
| Planner.ReplayBoundaryFits | src/tp4/glm53_replay_boundary.py:67-73 | the boundary is a multiple of the unit with one whole unit before the last token |
| Planner.ReplayBoundaryIsLongest | src/tp4/glm53_replay_boundary.py:67-73 | no longer multiple of the unit does |
| Planner.PlanExportsStopsInside | src/tp4/glm53_replay_boundary.py:118-134 | a plan ends after its start, no later than asked, and exports exactly the mandatory stops strictly inside it |
| Planner.NoExportsNoChange | src/tp4/glm53_replay_boundary.py:108-116 | without exports a plan is the first stop inside or the end asked for |
| Planner.PlansValidate | src/tp4/glm53_kda_ckpt_plan.py:49-63 | from a tile-aligned start every plan with exports passes the separate validation |
| Planner.AgreesWithOlder | src/tp4/glm53_kda_ckpt_plan.py:34-46 | with the boundary on the grid or not an inside stop the plan is the older planner's |
| Planner.EachStopOnce | src/tp4/glm53_replay_boundary.py:108-134 | iterating advances and materialises every mandatory stop exactly once, in ascending order |
| PlannerPromises.PlanMeetsLaw | src/tp4/glm53_replay_boundary.py:108-134 | the law of a plan without its walk: it ends at a stop only if that stop is not exportable, the exports are full, or it is the boundary and shares its column with another export or the end; an exportable stop lies on the grid or is the boundary, a whole number of tiles from the start |
| PlannerPromises.LawIsThePlan | src/tp4/glm53_replay_boundary.py:108-134 | no other plan meets that law |
| PlannerPromises.LoneBoundaryIsExported | src/tp4/glm53_replay_boundary.py:108-134 | a boundary that is the only stop inside, tile-aligned and in another column than the end, is exported from inside the chunk |
| PlannerPromises.PlanPassesValidation | src/tp4/glm53_kda_ckpt_plan.py:49-63 | what the separate validation asks, spelled out: interior tile states in ascending order and distinct columns, none the final one's |
| Planner.Exports | src/tp4/glm53_replay_boundary.py:120-127 | the loop leaves the exports and the stop of the walk whose outcome PlanMeetsLaw and LawIsThePlan determine |
| Planner.Chunk | src/tp4/glm53_replay_boundary.py:108-134 | the planner fails exactly on a grid that is not a positive multiple of 16, and else gives the one plan that meets the law |
| Registry.UnmappedIsGone | src/tp4/glm53_replay_boundary.py:253-275 | dropping an entry unmaps every recorded block and leaves every other block as it was |
| Registry.OtherHashesStay | src/tp4/glm53_replay_boundary.py:264-269 | a recorded block whose primary hash is another keeps all its other hashes |
| RegistryPromises.UnmappedExactly | src/tp4/glm53_replay_boundary.py:258-272 | hash by hash what a drop takes from the pool, the primary and the further hashes: all of a block whose primary hash is the recorded one, else that hash alone, and nothing of a block no longer mapped under it |
| Registry.RecordedInv | src/tp4/glm53_replay_boundary.py:179-199 | a registration keeps the invariant of tags and entries |
| Registry.MovedInv | src/tp4/glm53_replay_boundary.py:201-214 | a move keeps it, whether the registry takes or declines it |
| RegistryPromises.MovedIs | src/tp4/glm53_replay_boundary.py:201-214 | a move is taken exactly if tag, entry and record agree on object, group and epoch; then record and tag go over to the destination and all else stays |
| Registry.EnforcedInv | src/tp4/glm53_replay_boundary.py:282-300 | enforcing the cap keeps the entry just used, releases what it drops and leaves at most max(1, cap) entries |
| RegistryPromises.EnforcedKeepsRecent | src/tp4/glm53_replay_boundary.py:291-300 | without dead entries exactly the entry just used and the most recently used others survive |
| RegistryPromises.DeadGoFirst | src/tp4/glm53_replay_boundary.py:282-290 | if no two entries record the same block, a dead entry survives only if no live one was dropped |
| RegistryPromises.StoredIsMostRecent | src/tp4/glm53_replay_boundary.py:186-195 | a registration makes its entry the most recently used and changes no other entry or record |
| Registry.RecordIsBounded | src/tp4/glm53_replay_boundary.py:179-199 | after a registration the new key is kept and at most max(1, cap) entries are left |
| Registry.ValidHitIsLatest | src/tp4/glm53_replay_boundary.py:216-225 | a valid hit is still mapped, and was last registered or moved for this key and group if and only if no move the registry declined touched the block since |
| Registry.AdmitIsSound | src/tp4/glm53_replay_boundary.py:227-251 | an admitted lookup has only recorded blocks that are still mapped so, last registered or moved for this key and group exactly where no declined move touched them since; a refusal unmaps all recorded blocks and no others |
| RegistryPromises.AdmittedExactly | src/tp4/glm53_replay_boundary.py:216-240 | a lookup is admitted if and only if every returned block the entry recorded is the same object in the same group, carries the record's tag and is still mapped |
| RegistryPromises.AdmittedIsMostRecent | src/tp4/glm53_replay_boundary.py:241-251 | an admission that judged a block makes its entry the most recently used one; with nothing to judge the order stays |
| Registry.DeclinedMoveIsAdmitted | src/tp4/glm53_replay_boundary.py:201-225 | the exception happens: after a declined move onto a registered block that the pool still maps, the lookup is admitted |
| Registry.RunInv | src/tp4/glm53_replay_boundary.py:152-300 | the invariant in every state of every run, whatever the pool does in between |
| Registry.Registry.DropBlocks | src/tp4/glm53_replay_boundary.py:253-275 | the dropping loop leaves exactly the pool of UnmappedIsGone and the tags without this entry's, and never reaches its error |
| Registry.Registry.RecordBlock | src/tp4/glm53_replay_boundary.py:179-199 | a registration with its cap enforcement on the object is the specified one; the new key is kept and at most max(1, cap) entries are left |
| Registry.Registry.MoveBlock | src/tp4/glm53_replay_boundary.py:201-214 | a move on the object is the one MovedInv is about, an untagged source included |
| Registry.Registry.AdmitHits | src/tp4/glm53_replay_boundary.py:227-251 | a lookup on the object is the one AdmitIsSound is about, answer, entries, tags and pool |
| Registry.Registry.EnforceCap | src/tp4/glm53_replay_boundary.py:282-300 | the eviction and sweep loops reach exactly the state EnforcedInv is about |
| Utf8.DecoderIsRfc3629 | src/tp4/glm53_utf8_guard.py:90-119 | the decoder stands at a boundary after exactly the strings of section 4 of RFC 3629 and runs without error on exactly their prefixes |
| Utf8.ReadingsMeet | src/tp4/glm53_utf8_guard.py:122-130 | reading from a pending state and from a boundary meet once the missing bytes are consumed |
| Utf8.ValidFrom | src/tp4/glm53_utf8_guard.py:133-139 | the validity loop with its early exits says yes exactly when the decoder runs through without error |
| Utf8.Advance | src/tp4/glm53_utf8_guard.py:142-145 | the advancing loop ends in the resynchronising state of the whole string |
| Utf8Promises.PendingIsTail | src/tp4/glm53_utf8_guard.py:122-145 | the resynchronising state of any bytes is pending exactly if some tail of them runs from a boundary to that state |
| Utf8Guard.WindowIsEnough | src/tp4/glm53_utf8_guard.py:274-280 | the last four tokens decide the state of any history of non-empty or byte-less tokens |
| Utf8Guard.RowState | src/tp4/glm53_utf8_guard.py:274-286 | the state the kernel computes, from the window and the drafts before the row, is that of the whole history |
| Utf8Guard.GuardedTextIsUtf8 | src/tp4/glm53_utf8_guard.py:325-349 | a history in which every token is allowed at the state before it is a prefix of a well-formed string, and one exactly at the boundaries |
| Utf8Guard.PrefixCompletes | src/tp4/glm53_utf8_guard.py:204-223 | a pair's completing token is valid where the mixed one is and reaches a boundary |
| Utf8Guard.FoldingConserves | src/tp4/glm53_utf8_guard.py:301-313 | the masses after folding and masking sum to those the allowed tokens had |
| Utf8Guard.SupportStays | src/tp4/glm53_utf8_guard.py:294-313 | folding and masking never empty a supported row and leave mass on allowed tokens only |
| Utf8Guard.SampledTextIsUtf8 | src/tp4/glm53_utf8_guard.py:274-349 | a mode 2 run from a boundary that samples only ids with a mass in their folded and masked rows, at the states the kernel computes and with supported pending rows, stays a prefix of a well-formed string |
| Utf8Guard.PendingRunEnds | src/tp4/glm53_utf8_guard.py:301-313 | if every mixed token's completing bytes are a token a pending run ends within three tokens |
| Utf8Guard.FoldPairs | src/tp4/glm53_utf8_guard.py:204-223 | the list of pairs holds exactly the mixed tokens whose completing bytes are a token |
| Utf8Guard.Guard | src/tp4/glm53_utf8_guard.py:239-349 | both kernels on one row, whose outcome GuardKeeps determines token by token; a pending row without support is left alone and reported |
| Utf8Promises.GuardKeeps | src/tp4/glm53_utf8_guard.py:294-349 | what a guarded row keeps after a proper history: at a boundary in mode 2 exactly the tokens that may follow, the end of the text among them, save a padded-out id 0; in a pending row with a choice exactly those that may follow, up to folding |
| Utf8Promises.GuardAfter | src/tp4/glm53_utf8_guard.py:239-349 | the same for the kernels run on a history and its drafts, with the conflict they report |
| Utf8Promises.MaskKeeps | src/tp4/glm53_utf8_guard.py:341-345 | a token keeps its mass if and only if the text can still become well-formed after it, a byte-less one if the text is well-formed |
| Utf8Promises.AllowedIs | src/tp4/glm53_utf8_guard.py:186-196 | the table's validity bit at the state of a guarded history says exactly whether the token may follow its text |
| Utf8Guard.BoundaryIds | src/tp4/glm53_utf8_guard.py:377-379 | the list a boundary row is struck at: the tokens invalid there, or the single id 0 if there are none |
| Utf8Guard.Strike | src/tp4/glm53_utf8_guard.py:346-349 | the scatter of that list |
| Utf8Guard.BoundaryMaskIs | src/tp4/glm53_utf8_guard.py:346-379 | a boundary row is masked as its state asks if and only if some token is invalid there or id 0 has no mass anyway |
| Utf8Promises.OnlyTokenIsStruck | src/tp4/glm53_utf8_guard.py:377-379 | a concrete row whose only valid token is struck |
| GreedyVerify.BlockMax | src/tp4/glm53_greedy_verify.py:61-66 | the maximum of one block and its lowest index |
| GreedyVerify.LocalArgmax | src/tp4/glm53_greedy_verify.py:55-70 | the lowest index of a shard's maximum, NaN as minus infinity |
| GreedyVerify.ArgmaxIs | src/tp4/glm53_greedy_verify.py:55-70 | what that argmax is, case by case: the first plus infinity, else the first of the greatest numbers, else index 0 |
| GreedyVerify.CombinePairs | src/tp4/glm53_greedy_verify.py:109-112 | the first rank with the greatest value |
| GreedyVerify.ShardedArgmax | src/tp4/glm53_greedy_verify.py:98-112 | for any sharding of a row shorter than 2^24 the combination is the lowest index of the whole row's maximum |
| GreedyVerify.ShardingIrrelevant | src/tp4/glm53_greedy_verify.py:98-112 | the result does not depend on how the row is split over the ranks, and is index 0 for a row with nothing above minus infinity |
| GreedyVerify.AcceptRequest | src/tp4/glm53_greedy_verify.py:74-95 | the accepted drafts and the target's own token, and their number |
| GreedyVerify.AcceptedIs | src/tp4/glm53_greedy_verify.py:74-95 | every accepted draft is a token and the target's, and the first one not accepted is not |
| GreedyVerify.StepIsGreedy | src/tp4/glm53_greedy_verify.py:74-95 | one step emits at least one token and exactly the next greedy ones |
| GreedyVerify.StepIsLongest | src/tp4/glm53_greedy_verify.py:74-95 | a step accepts m drafts if and only if they are tokens and the next m greedy ones, so that it never stops early |
| GreedyVerify.DecodingIsGreedy | src/tp4/glm53_greedy_verify.py:74-95 | any number of steps with any drafts emit exactly the greedy stream |
| MoeRoutes.RowsAreDistinct | docker/base/11-moe/patch_b12x_moe_decode.py:347-361 | distinct active routes have distinct physical rows |
| MoeRoutes.RowsAreOrdered | docker/base/11-moe/patch_b12x_moe_decode.py:347-361 | the rows lie in the order of the experts, and within an expert in the order of the pairs |
| MoeRoutes.RowsFollow | docker/base/11-moe/patch_b12x_moe_decode.py:294-361 | an expert's rows begin a tile, the first expert with routes begins at row 0, and a route lies as far behind as there are earlier pairs of its expert |
| MoeRoutes.PackingRoundTrips | docker/base/11-moe/patch_b12x_moe_decode.py:332-345 | the packed rows and base come back exactly as long as the base leaves the sign bit alone |
| MoeRoutes.RowReadsBack | docker/base/11-moe/patch_b12x_moe_decode.py:347-361 | the row the kernel finds for a route is its physical row if and only if its expert begins below tile 2^15 |
| MoeRoutes.TableIsRight | docker/base/11-moe/patch_b12x_moe_decode.py:332-399 | all rows are right, and all task slots, if and only if every expert with a route begins below tile 2^15 |
| MoeRoutes.SafeSizes | docker/base/11-moe/patch_b12x_moe_decode.py:120 | the condition on a call's size: all lists of so many routes over so many experts are read back right if and only if there are at most 2^15 routes, or (routes - 1) + 15 (experts - 1) is below 2^19 |
| MoeRoutes.RowIsLost | docker/base/11-moe/patch_b12x_moe_decode.py:120 | a call within the checked limits that fails: with the routes 0, 1, ..., 2^15 the last row is read back as -2^19 |
| MoeRoutes.BaseIsBounded | docker/base/11-moe/patch_b12x_moe_decode.py:309-331 | there are no more tiles than routes, and every expert wastes less than a tile |
| MoeRoutes.TaskAt | docker/base/11-moe/patch_b12x_moe_decode.py:379-399 | the task of each tile: its expert and valid rows |
| MoeRoutes.RouteHasTask | docker/base/11-moe/patch_b12x_moe_decode.py:347-399 | every active route lies in a tile of its own expert among its valid rows |
| MoeRoutes.TaskHasRoute | docker/base/11-moe/patch_b12x_moe_decode.py:347-399 | every valid row of every tile is some route's |
| MoeRoutes.TasksCoverActiveRoutes | docker/base/11-moe/patch_b12x_moe_decode.py:379-405 | the valid rows sum to the active routes |
| MoeKernel.RankRoutes | docker/base/11-moe/patch_b12x_moe_decode.py:294-307 | the histogram counts each expert's routes and every pair gets the number of earlier pairs of its expert |
| MoeKernel.ScanTiles | docker/base/11-moe/patch_b12x_moe_decode.py:309-330 | the two-level scan leaves in every thread's cell the sequential prefix sum before its span, whatever the order of the threads |
| MoeKernel.PackTable | docker/base/11-moe/patch_b12x_moe_decode.py:332-345 | the packed table equals the sequential prefix sum |
| MoeKernel.PlaceRoutes | docker/base/11-moe/patch_b12x_moe_decode.py:347-362 | every active route gets the row read back from its expert's packed word, the threads in any order, whatever the bases |
| MoeKernel.PublishTasks | docker/base/11-moe/patch_b12x_moe_decode.py:379-399 | every task slot holds its tile's expert and valid rows, the experts in any order, if every expert with a route begins below tile 2^15 |
| MoeKernel.BuildRouteTable | docker/base/11-moe/patch_b12x_moe_decode.py:280-405 | all phases together: under the same condition the rows are the distinct physical rows, and the task list and tail those of the sequential specification |

## Left out

- Floating-point numerics: the matrix fragments, swizzles and FP4/FP8 quantizers of the kernels are uninterpreted functions.
- All-reduce memory model: fences and relaxed loads are read as taking effect in program order, and a poison word may be seen late; a proxy failure, a stop request and the proxy's work-queue accounting are not modelled.
- All-reduce grid: one number of blocks for all launches; the thread loop within a block is one step.
- KDA output rows: the model follows the states, not the per-token outputs written beside them, nor the poisoned output rows of a failed call.
- KDA row order: the rows of a window run one after the other in any order; their slots are disjoint, so that an interleaving of their steps is not modelled apart.
- KDA heads and splits: one head and one column split; the others are copies over disjoint parts of each slot.
- KdaStages.WarpsReadTheirTiles: the thirty-three arrivals of a full barrier are one landing step.
- CausalConv.ConvTile: the zero rows past the tail that the q and k outputs carry are not part of the model, which follows the rows that are written.
- TopKKernels.CanonicalizeTopK: the bounds are within the row and NaN scores are not modelled; the fixed choice of 512, 1024 or 2048 places is any positive number.
- RowSplit counters, the vote over settings and the check mode: bookkeeping around the selection.
- FairPrefill: the adaptive chunk cap is a parameter of a turn, the same for the cadence, the fair queue and the limits.
- Cadence prefill_id, prefill_start and prefill_end: fields that are only reported.
- Policy.Base.Choose: cost curves and the survival estimates are one parameter, the length they prefer; the reasons of a decision are not kept, how an observation moves a request's history is no part of this model, and trim_batch and the override file are left out.
- Planner: rows_for_batch and the module's step variable only hand a plan over.
- Registry counters, marks, times and request names: telemetry; clear drops every entry in turn.
- Utf8Guard: building the token table from a tokenizer file, the greedy rows, and the audit state are left out; an id list is any sequence of integers.
- GreedyVerify: eligibility checks and the gather over ranks are left out; every shard has at least one column.
- MoeKernel.BuildRouteTable: the token map, the weights and the quantized rows written beside the table are left out, and a task occupies one slot per tile, the slot layout of _publish_deferred_tasks being no part of this model.
- Launchers, installers, environment parsing, benchmarks and reports: no algorithm of their own.
