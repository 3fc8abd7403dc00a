# A Dafny model of the npSim timing simulator

npSim replays an instruction trace through a clocked model of a small system: a five-stage in-order core,
an instruction and a data cache, a memory arbiter, an SDRAM model and branch predictors. Its parts call each
other once per tick, and what it promises is visible only over whole runs. This project states those
promises as Dafny lemmas and proves them.

Run `dafny verify dfyconfig.toml` in this directory.

## How it is built

Most components of the simulator appear twice: as a machine on values (a datatype `State` and one
function per operation), about which the run properties are proved, and as a class with the fields and loops
of the source, whose methods are proved to move the object exactly as the machine moves its value.

| part | machine | class | run properties |
|---|---|---|---|
| pipeline | `Core.dfy`, `Retire.dfy` (order of retirement), `History.dfy` (speculative history) | `Pipeline.dfy`, `FetchQueue.dfy` | `CoreInv.dfy`, `CoreSteps.dfy`, `CoreFetch.dfy`, `CoreRuns.dfy`, `StageOutcomes.dfy` |
| cache | `CacheBase.dfy`, `PipeCache.dfy` | `PipeCacheModel.dfy` | `PipeCacheInv.dfy`, `PipeCacheRuns.dfy`, `PipeCacheDirty.dfy`, `Victims.dfy`, `LruStack.dfy`, `PipeCacheLru.dfy`, `Plru.dfy` |
| arbiter | `Arbiter.dfy`, `Routing.dfy` | `RamArbiter.dfy` | `Arbiter.dfy` |
| SDRAM | `Sdram.dfy` | `SdramModel.dfy` | `Sdram.dfy` |
| memory system | `MemorySystem.dfy` (caches, ports, arbiter and SDRAM together) | | `MemoryTiming.dfy`, `BlockOrigin.dfy`, `MemorySystemInv.dfy`, `MemoryRuns.dfy` |
| pipeline on its memory system | `WholeSystem.dfy` | | `WholeSystem.dfy`, `RequestsOut.dfy` |
| TAGE | `Fold.dfy`, `Tage.dfy` | `TageModel.dfy` | `TageRuns.dfy`, `TageTraining.dfy`, `TageHash.dfy`, `TageScores.dfy` |
| return stack | `ReturnStack.dfy` | `ReturnStack.dfy` | `ReturnStack.dfy` |
| cycle attribution | `Stall.dfy` | `Stall.dfy` | `Stall.dfy` |

A run is a sequence of events from an initial state; `Reachable` says that some run leads to a state. The
ticks at which stages and caches wake up, operand readiness, the predictor's table contents (in the pipeline)
and device answers are inputs of the events, so each result holds for every timing. Positions, read numbers,
prediction numbers and logs are bookkeeping added to state the results; the simulator does not keep them.

What single operations do is stated a second time without the functions of the machine, in fields, numbers and
histories: `StageOutcomes` for the pipeline, `PipeCacheDirty` and `Victims` for the caches, `TageTraining`,
`TageHash` and `TageScores` for TAGE, `Sdram.DocLatency` for the SDRAM, `RequestsOut` for what leaves where.

## Where the code differs from its own description

- The wrong-path drop in `do_decode` and `flush_false_btb_hit` are dead code (`CoreRuns.DeadBranches`).
- `Tage.cc:195-199` expects snapshot overflow for branches that stall for long. With a queue of 8 a branch is at
  most 10 predictions old when it resolves, so the ring of 512 cannot overflow (`CoreRuns.SnapshotIsOwn`).
- `Pipeline.hh:70` says that the stall buckets add up to `cycles`; after a commit they add up to `cycles + 1`
  (`Stall.CommitSum`).
- `fold_ghr` folds all 64 bits for a history length of 63, not 63 (`Fold.FoldExactIff`).
- A flush (FENCE.I) discards dirty lines of the write-back cache without writing them: `PipeCacheRuns.FlushForgetsDirty`
  gives a run, `PipeCacheRuns.DirtyLostIffFlush` says exactly which updates do so.
- GShare's history is not the true history, in two cases (`CoreFetch.GshareContribution`): a not-taken branch that
  missed the BTB and was called taken leaves a one, and a taken return that the tables called not taken leaves a
  zero when the return stack predicted it right. A zero return address acts as a miss. TAGE has the cases of the
  return stack only (`CoreFetch.TageContributionWithRas`).

## Model

| member | source | states |
|---|---|---|
| `CoreRuns.ExactlyOnce` | src/pipeSim/Pipeline.cc:577-626 | in every reachable state each fed instruction is committed or in flight, never both and never twice, and `ongoing_insts_` is fed minus committed |
| `CoreRuns.DrainedMeansCommitted` | src/pipeSim/Pipeline.hh:211-214 | `is_finished` holds only when every fed instruction has been committed |
| `CoreRuns.FlushLosesNothing` | src/pipeSim/Pipeline.cc:363-406 | an EX flush empties the queue and Fetch, but everything it discards is a wrong-path placeholder: the count and the set of instructions in flight stay as they were |
| `CoreRuns.OneMisprediction` | src/pipeSim/Pipeline.cc:107-216 | at most one unresolved misprediction is in flight; everything fetched after it is a placeholder and nothing before it is |
| `CoreRuns.WritesInTraceOrder` | src/pipeSim/Pipeline.cc:322-339 | for every non-zero register, the commits that write it happen in trace order, although MUL and DIV bypass Memory |
| `CoreRuns.CommitOrder` | src/pipeSim/Pipeline.cc:577-602 | a MUL or DIV commits only after everything older; any other instruction overtakes at most the one in the unit, and writes another register |
| `CoreRuns.ResponseFindsItsOwner` | src/pipeSim/Pipeline.cc:242-258 | every iCache response finds its FIFO entry, and one that is no orphan goes to the queue entry whose own read it answers |
| `CoreRuns.OrphanFifo` | src/pipeSim/Pipeline.cc:377-388 | `resp_is_orphan` has one entry per outstanding read; its false entries are, in order, the waiting queue entries, which form a suffix of the queue |
| `CoreRuns.NoAssertFails` | src/pipeSim/Pipeline.cc:242-258 | no assert on a response fails in a reachable state, for every order and timing of handlers, and every possible handler leads to a reachable state |
| `CoreRuns.TickReachable` | src/pipeSim/Pipeline.cc:49-78 | the states inside one `update_impl`, stage by stage in its order, are reachable, so the results above hold there too |
| `CoreRuns.HistoryIsRightPath` | src/pipeSim/Pipeline.cc:107-155 | every right-path prediction sees exactly the last bits contributed by older right-path branches: wrong-path predictions leave no trace |
| `CoreRuns.TageHistoryIsTruth` | src/branchSim/Tage.cc:165-176 | with no return stack in play, TAGE's history is the true direction of every right-path branch that hit the BTB or was taken |
| `CoreRuns.SnapshotIsOwn` | src/branchSim/Tage.cc:193-208 | a branch not yet resolved is at most queue capacity + 2 predictions old, so the guard accepts its id and the slot holds its own register (the ring cannot overflow with the simulator's queue of 8) |
| `CoreRuns.OneAccessOut` | src/pipeSim/Pipeline.cc:544-560 | a load/store response arrives only for the access that waits in Execute; no second access is sent while it is out |
| `CoreRuns.DeadBranches` | src/pipeSim/Pipeline.cc:265-272 | the wrong-path drop in `do_decode` and `flush_false_btb_hit` never happen |
| `CoreRuns.StepInv` | src/pipeSim/Pipeline.cc:49-78 | every handler keeps the whole invariant and is one step, or none, of the abstract retirement machine |
| `CoreSteps.ExecuteInv` | src/pipeSim/Pipeline.cc:355-429 | the flush keeps the invariant: only placeholders are behind a mispredicted branch, and the repair restores the right-path history |
| `CoreSteps.DecodeInv` | src/pipeSim/Pipeline.cc:261-352 | the structural and write-after-write checks of Decode keep at most one M-extension instruction in the units and no hazard with it |
| `CoreSteps.MemoryInv` | src/pipeSim/Pipeline.cc:472-541 | do_memory keeps the invariant, with and without a bypass port |
| `CoreSteps.WritebackInv` | src/pipeSim/Pipeline.cc:577-626 | a commit is a commit of the abstract machine and keeps the count |
| `CoreSteps.IfuRespInv` | src/pipeSim/Pipeline.cc:242-258 | a response keeps the FIFO invariant; the entry it wakes is the one whose read number it carries |
| `CoreSteps.RepairRestores` | src/branchSim/Bimodal.cc:98-102 | the repair at EX gives the register that the right path alone would have built |
| `CoreFetch.WrongPathInv` | src/pipeSim/Pipeline.cc:107-155 | a wrong-path fetch adds a placeholder, a prediction and a read, and keeps the invariant |
| `CoreFetch.RealFetchInv` | src/pipeSim/Pipeline.cc:156-216 | a right-path fetch, accurate or mispredicted, keeps the invariant |
| `CoreFetch.TageContributionIsTruth` | src/branchSim/Tage.cc:165-176 | without a return stack the bit TAGE keeps is the actual direction for BTB hits and taken branches, whatever the tables say |
| `CoreFetch.TageContributionWithRas` | src/branchSim/BranchPred.cc:132-146 | with a return stack that fails exactly for a return that the stack predicted right against the tables (or the mirror case of a zero return address) |
| `CoreFetch.GshareContribution` | src/branchSim/Bimodal.cc:67-81 | GShare's bit is the actual direction, with or without a return stack, except exactly for a not-taken branch called taken that missed the BTB (or met a zero return address) and for a taken return called not taken that the return stack predicted right |
| `StageOutcomes.LaunchIff` | src/pipeSim/Pipeline.cc:81-176 | do_fetch_0 launches the pending instruction if and only if the cache is ready, the holdoff is over, no announced orphan read is left, wrong-path mode is off or flushed, and the queue has room |
| `StageOutcomes.LaunchJudged` | src/pipeSim/Pipeline.cc:176-182 | for every launch, in fields of the trace record and the predictor's answer: a taken branch is right if and only if the front end goes to a non-zero address equal to its target, one not taken if and only if the front end goes straight on, and nothing else is ever judged mispredicted |
| `StageOutcomes.LaunchSteers` | src/pipeSim/Pipeline.cc:184-216 | after a launch the front end is on the wrong path if and only if the branch is mispredicted; an accurate redirect announces two reads; an override of the base by TAGE on a BTB hit holds fetching until two ticks later |
| `StageOutcomes.TwoOrphans` | src/pipeSim/Pipeline.cc:92-102 | after an accurate branch that redirects, in every run without a flush, exactly the next two reads are orphans that leave queue and input alone, and the third belongs to a queue entry |
| `StageOutcomes.EarlyCount` | src/pipeSim/Pipeline.cc:92-102 | every run without a flush counts the announced reads down by the reads it issues |
| `StageOutcomes.DecodeIff` | src/pipeSim/Pipeline.cc:261-352 | Decode takes the instruction if and only if it is real, its operands are ready, no unit is busy if it is of the M extension, and no unit will write its register |
| `StageOutcomes.FlushHoldsFetch` | src/pipeSim/Pipeline.cc:377-404 | after the flush of a mispredicted branch nothing is fetched in that tick, and the pending instruction can be launched in the next |
| `StageOutcomes.MemoryRoutes` | src/pipeSim/Pipeline.cc:472-541 | do_memory by address and configuration: no memory operation moves on; a load or store goes out once when its port is ready and waits for its answer; one outside the memory regions without a bypass port is timed inside the pipeline and never sent |
| `StageOutcomes.HoldDelays` | src/pipeSim/Pipeline.cc:220-239 | a queue entry reaches Fetch in the call that finds its data there and its hold at zero; every earlier call takes one from the hold |
| `StageOutcomes.MulTakesFour` | src/pipeSim/Pipeline.cc:432-449 | a multiplication that entered its unit at a tick can commit, over every run in which it stays there, from 4 ticks later on, if neither Memory, Execute nor a finished division is in its way, and not before |
| `StageOutcomes.DivTakesThirtyFour` | src/pipeSim/Pipeline.cc:452-469 | the same for divisions and remainders, 34 ticks |
| `StageOutcomes.TickMovesOne` | src/pipeSim/Pipeline.cc:64-75 | in one tick no instruction advances by more than one stage and at most one commits |
| `StageOutcomes.TickCommits` | src/pipeSim/Pipeline.cc:577-602 | what a tick commits: Memory first; else, with Execute empty, a finished division, then a finished multiplication; nothing else |
| `StageOutcomes.TickIssues` | src/pipeSim/Pipeline.cc:432-469 | in a tick in which the unit is due, a multiplication or division in Decode enters it, ready 4 or 34 ticks later |
| `StageOutcomes.FullTick` | src/pipeSim/Pipeline.cc:64-75 | a full pipeline of plain instructions commits one and moves each other one exactly one stage in every tick |
| `Retire.StepInv` | src/pipeSim/Pipeline.cc:577-602 | every step of the retirement discipline keeps conservation, hazard freedom and per-register order |
| `Retire.Partition` | src/pipeSim/Pipeline.hh:200-214 | positions fed are split without overlap into committed, in Execute/Memory, in the unit, and not yet issued, and the counts add up |
| `Retire.ExtCommitsInOrder` | src/pipeSim/Pipeline.cc:581-590 | when the unit commits, everything older has committed |
| `Retire.BackOvertakesOnlyExt` | src/pipeSim/Pipeline.cc:322-339 | an instruction that commits past an older one leaves only the one in the unit behind, with a different destination |
| `PipelineClass.Pipeline.constructor` | src/pipeSim/Pipeline.cc:31-46 | an empty pipeline |
| `PipelineClass.Pipeline.Feed` | src/pipeSim/Pipeline.hh:200-209 | the fed instruction enters the input buffer and is offered to the fetch at once; reachability is kept |
| `PipelineClass.Pipeline.RecvMemResp` | src/pipeSim/Pipeline.cc:629-643 | each response id goes to its handler, whose asserts hold in a reachable state |
| `PipelineClass.Pipeline.DoFetch0` | src/pipeSim/Pipeline.cc:81-217 | at most one read per tick: orphan read, wrong-path placeholder or real instruction, in the source's priority and judged as `StageOutcomes.LaunchJudged` says |
| `PipelineClass.Pipeline.DoFetch1` | src/pipeSim/Pipeline.cc:220-239 | the front of the queue moves to Fetch when its data is there and its hold has expired |
| `PipelineClass.Pipeline.HandleIfuResp` | src/pipeSim/Pipeline.cc:242-258 | the FIFO is popped; the first waiting entry is woken unless the response is an orphan |
| `PipelineClass.Pipeline.DoDecode` | src/pipeSim/Pipeline.cc:261-352 | the hazards that stop Decode, and the move to Decode otherwise |
| `PipelineClass.Pipeline.DoExecute` | src/pipeSim/Pipeline.cc:355-429 | the branch is resolved; a mispredicted one repairs the history and flushes |
| `PipelineClass.Pipeline.Flush` | src/pipeSim/Pipeline.cc:377-404 | the loops over the orphan FIFO and the queue equal marking all, subtracting the counted and clearing |
| `PipelineClass.Pipeline.DoMulExt` | src/pipeSim/Pipeline.cc:432-449 | MUL leaves Decode for its unit, ready 4 ticks later |
| `PipelineClass.Pipeline.DoDivExt` | src/pipeSim/Pipeline.cc:452-469 | DIV and REM leave Decode for their unit, ready 34 ticks later |
| `PipelineClass.Pipeline.DoMemory` | src/pipeSim/Pipeline.cc:472-541 | routing of a load or store, and the move to Memory when nothing is to wait for |
| `PipelineClass.Pipeline.HandleLsuResp` | src/pipeSim/Pipeline.cc:544-574 | the waiting access moves from Execute to Memory |
| `PipelineClass.Pipeline.DoWriteback` | src/pipeSim/Pipeline.cc:577-626 | Memory first, then DIV, then MUL if Execute is empty and the result is ready |
| `PipelineClass.Pipeline.Update` | src/pipeSim/Pipeline.cc:49-78 | the stages in reverse order, then one fetch; reachability is kept |
| `FetchQueue.RingBuf.constructor` | src/pipeSim/Pipeline.hh:263-265 | an empty queue, for every head position and wrap |
| `FetchQueue.RingBuf.PushBack` | src/pipeSim/Pipeline.hh:284-290 | appends to the contents, for every head position and wrap |
| `FetchQueue.RingBuf.PopFront` | src/pipeSim/Pipeline.hh:298-311 | removes the oldest entry and frees its slot, for every head position and wrap |
| `FetchQueue.RingBuf.Clear` | src/pipeSim/Pipeline.hh:312-320 | empties every slot, for every head position and wrap |
| `FetchQueue.RingBuf.FindIf` | src/pipeSim/Pipeline.hh:321-335 | the oldest entry with the property, or none, for every head position and wrap |
| `History.PredictRing` | src/branchSim/Tage.cc:95-102 | a prediction stores its register in a slot, with a 32-bit wrapping id, and leaves the 511 slots before it alone |
| `History.GuardExact` | src/branchSim/Tage.cc:193-203 | the guard accepts an id if and only if fewer than 512 predictions came since, while ids have not lapped |
| `History.RepairExact` | src/branchSim/Tage.cc:295-304 | inside the window a repair restores the register that this very prediction saw and appends the actual direction |
| `History.RepairSkipped` | src/branchSim/Tage.cc:295-299 | outside the window a repair changes nothing |
| `History.LappedIdIsAccepted` | src/branchSim/Tage.cc:295-300 | the limit of 2^32 is needed: an id that lapped by one is accepted and yields another prediction's register |
| `History.LastBitsShift` | src/branchSim/Tage.cc:175-176 | a masked shift keeps exactly the last bits of the unbounded history |
| `Fold.FoldGhr` | src/branchSim/Tage.cc:51-64 | `fold_ghr` ends for every input and gives the XOR of the chunks of the masked register, cut to 32 bits |
| `Fold.ChunksAreParities` | src/branchSim/Tage.cc:56-63 | bit j of a fold is the parity of the history bits whose position is j modulo the width |
| `Fold.FoldExactIff` | src/branchSim/Tage.cc:52-55 | for lengths up to 62 exactly that many bits are folded; length 63 is right if and only if bit 63 is clear |
| `Fold.FoldLinear` | src/branchSim/Tage.cc:51-64 | folding is linear over XOR |
| `Fold.FoldIsShiftRegister` | src/branchSim/Tage.cc:175-176 | pushing a bit into the history is one step of a circular shift register: rotate, new bit in, outgoing bit out at length mod width |
| `TageRuns.CountersInRange` | src/branchSim/Tage.hh:130-143 | over every run prediction counters stay in [-4,3], use and base counters in [0,3], and all indices inside the tables |
| `TageRuns.OwnSnapshot` | src/branchSim/Tage.cc:193-208 | statistics, training and repair of a branch see the snapshot its own prediction stored, or skip it when 512 predictions have passed |
| `TageRuns.TrainsAtMostOnce` | src/branchSim/Tage.cc:204-208 | each prediction trains the tables at most once, and exactly when it is recent and has not trained before |
| `TageRuns.ProviderIsLongest` | src/branchSim/Tage.cc:115-158 | the provider is the longest component that hits, the alternative the next one, and a new provider defers to it |
| `TageRuns.AllocatedIsFound` | src/branchSim/Tage.cc:243-277 | in every reachable state, when a recent prediction that was wrong trains and a free entry exists above its provider, the allocated entry is hit by the same branch with the same history, weakly in the actual direction |
| `TageRuns.Accounting` | src/branchSim/Tage.cc:312-354 | TAGE, base and per-component totals agree over every run; overrides are helpful plus harmful |
| `TageRuns.GainIsOverrides` | src/branchSim/Tage.cc:325-341 | correct TAGE minus correct base predictions is helpful minus harmful overrides plus what branches without a BTB hit contributed |
| `TageRuns.GainWithAllHits` | src/branchSim/Tage.cc:325-341 | when all resolved branches had hit the BTB that second part is zero, whatever the unresolved predictions did |
| `TageRuns.RefinesHistory` | src/branchSim/Tage.cc:94-187 | the full predictor moves register, ring and ids as the history machine does, with the direction its tables give |
| `TageTraining.BaseMoves` | src/branchSim/Tage.cc:211-218 | one training moves the base counter of its branch one step towards the outcome, between 0 and 3, and no other |
| `TageTraining.ProviderMoves` | src/branchSim/Tage.cc:220-226 | one training moves the counter of the entry that gave the prediction one step towards the outcome, between -4 and 3, and keeps its tag |
| `TageTraining.UseMoves` | src/branchSim/Tage.cc:228-242 | its use counter goes up by one, to at most 3, when it was right against the alternative, down by one, to at least 0, when the alternative was right against it, and stays when they agreed |
| `TageTraining.WrongAllocates` | src/branchSim/Tage.cc:243-274 | a wrong prediction takes the lowest entry above its provider that is not in use: weak towards the outcome, no use, its tag; no other entry changes |
| `TageTraining.WrongAges` | src/branchSim/Tage.cc:258-265 | if all of them are in use, each loses one use and no other entry changes |
| `TageTraining.RightKeepsOthers` | src/branchSim/Tage.cc:243-247 | a right prediction changes no entry but the one that gave it |
| `TageTraining.PeriodHalves` | src/branchSim/Tage.cc:279-286 | the training that ends a period also halves the use of every valid entry |
| `TageTraining.PeriodCounts` | src/branchSim/Tage.cc:279-286 | over every run the period counter is the number of trainings modulo 262144 |
| `TageTraining.EntryMovesBy` | src/branchSim/Tage.cc:220-226 | over every sequence of predictions, trainings and repairs, n trainings of one entry in one direction move its counter by n, up to the limit |
| `TageTraining.SevenTrain` | src/branchSim/Tage.hh:130-143 | seven of them saturate it, and from then on a lookup that this entry decides says that direction |
| `TageTraining.ThreeTrain` | src/branchSim/Tage.cc:211-218 | three trainings of a base counter in one direction saturate it, and from then on the base says that direction |
| `TageTraining.SaysTaken` | src/branchSim/Tage.cc:103-158 | the thresholds of a lookup: base counter at least 2; component counter at least 0, unless it is -1 or 0 with no use, when the alternative decides |
| `TageTraining.StartsNotTaken` | src/branchSim/Tage.cc:14-43 | a new predictor hits nowhere and says not taken for every branch |
| `TageTraining.RegisterReaches` | src/branchSim/Tage.cc:27-43 | with growing history lengths the register holds every bit that a component looks at, up to 64 |
| `TageHash.BaseIndexBit` | src/branchSim/Tage.hh:157-163 | bit j of a base index is the XOR of two address bits |
| `TageHash.CompIndexBit` | src/branchSim/Tage.cc:67-72 | bit j of a component's index is one address bit XOR the parity of the outcomes whose distance in the history is j modulo the width |
| `TageHash.TagBit` | src/branchSim/Tage.cc:78-88 | bit j of a tag adds to that, from bit 1 on, the parity over the history without its newest outcome, in classes modulo 7 |
| `TageHash.RoundTrip` | src/branchSim/Tage.cc:67-88 | the number of a word has that word as its bits |
| `TageScores.ScoresAreCounts` | src/branchSim/Tage.cc:312-354 | each accuracy counter is, over every run, the number of counted resolutions of its kind: TAGE or base right or wrong, overrides that helped or harmed, and who gave the prediction |
| `TageClass.TagePredictor.constructor` | src/branchSim/Tage.cc:14-43 | the initial tables, register and ring |
| `TageClass.TagePredictor.CompIndex` | src/branchSim/Tage.cc:67-72 | the index uses the low PC bits and the history as `Fold` folds it |
| `TageClass.TagePredictor.CompHash` | src/branchSim/Tage.cc:78-88 | the tag uses the low PC bits and two folds of different width |
| `TageClass.TagePredictor.ProbeAll` | src/branchSim/Tage.cc:108-114 | index, tag and hit of every component |
| `TageClass.TagePredictor.Providers` | src/branchSim/Tage.cc:117-138 | the downward scan finds the two longest hits |
| `TageClass.TagePredictor.Ask` | src/branchSim/Tage.cc:94-187 | prediction, snapshot, speculative shift and override flag: all equal the predictor on values |
| `TageClass.TagePredictor.FindFree` | src/branchSim/Tage.cc:249-256 | the shortest free component above the provider |
| `TageClass.TagePredictor.AgeFrom` | src/branchSim/Tage.cc:259-265 | no free entry: all candidates lose one use |
| `TageClass.TagePredictor.AllocateEntry` | src/branchSim/Tage.cc:243-277 | allocation after a wrong final prediction |
| `TageClass.TagePredictor.HalveAll` | src/branchSim/Tage.cc:279-285 | the periodic halving of the use counters |
| `TageClass.TagePredictor.TrainEntry` | src/branchSim/Tage.cc:220-242 | the provider's counter and usefulness after a training, which `TageTraining` gives in numbers |
| `TageClass.TagePredictor.TrainOn` | src/branchSim/Tage.cc:193-288 | the guards, the training and the consumed snapshot: all equal the predictor on values |
| `TageClass.TagePredictor.Repair` | src/branchSim/Tage.cc:295-307 | on_mispred: the register becomes that of the snapshot plus the actual direction, or stays if the slot was overwritten |
| `TageClass.TagePredictor.CountAll` | src/branchSim/Tage.cc:312-354 | one resolved branch enters each breakdown |
| `TageClass.TagePredictor.CountResolved` | src/branchSim/Tage.cc:312-354 | on_resolved: nothing is counted for an overwritten or consumed snapshot |
| `ReturnStack.AlwaysSuffix` | src/branchSim/BranchPred.hh:245-258 | for every sequence of pushes and pops the bounded stack holds a suffix of the ideal unbounded one |
| `ReturnStack.BalancedLeaves` | src/branchSim/BranchPred.hh:245-258 | a balanced sequence of depth d leaves exactly the top min(c, max(0, n-d)) of the c entries that were there |
| `ReturnStack.ReturnPredicted` | src/branchSim/BranchPred.cc:137-144 | a return finds its own call on top if and only if the calls inside it nest less deep than the stack has entries |
| `ReturnStack.ReturnAddrStack.constructor` | src/branchSim/BranchPred.hh:240-243 | an empty stack |
| `ReturnStack.ReturnAddrStack.PushAddr` | src/branchSim/BranchPred.hh:245-250 | the oldest entry goes when the buffer is full |
| `ReturnStack.ReturnAddrStack.PopAddr` | src/branchSim/BranchPred.hh:252-257 | drops the newest entry, if any |
| `ReturnStack.ReturnAddrStack.TopAddr` | src/branchSim/BranchPred.hh:259-260 | the newest entry, or none |
| `Stall.IntervalsAreCycles` | src/pipeSim/Pipeline.hh:432-469 | charging whole intervals when the cause changes gives the same five buckets as charging every cycle at its end, over every run with at most one commit per tick |
| `Stall.BucketsConserve` | src/pipeSim/Pipeline.hh:184-191 | the five buckets always add up to `last_tick - reset_tick`, and `insts` equals the no-stall bucket |
| `Stall.CommitSum` | src/pipeSim/Pipeline.cc:604-624 | a commit leaves the buckets at `cycles + 1` if and only if no other commit happened in that tick |
| `Stall.RecoveryCycles` | src/pipeSim/Pipeline.hh:437-443 | cycle by cycle: after an EX flush every cycle up to the next commit goes to the misprediction bucket, except that of the flush itself if it has already committed |
| `Stall.RecoveryIsMisprediction` | src/pipeSim/Pipeline.cc:403-405 | the same for the interval account of the pipeline, over every run |
| `StallClass.StallAccount.FlushStallCycles` | src/pipeSim/Pipeline.hh:432-459 | charges the interval since the last tick, as a function of the old counters |
| `StallClass.StallAccount.SetCause` | src/pipeSim/Pipeline.hh:461-469 | a new cause, forced to misprediction during recovery, as a function of the old counters |
| `StallClass.StallAccount.StartRecovery` | src/pipeSim/Pipeline.cc:403-405 | the start of a recovery, as a function of the old counters |
| `StallClass.StallAccount.CommitInst` | src/pipeSim/Pipeline.cc:604-624 | the statistics of a commit, as a function of the old counters |
| `StallClass.StallAccount.ResetAll` | src/pipeSim/Pipeline.hh:184-191 | all counters and the interval start over, as a function of the old counters |
| `Sdram.BatchRefresh` | src/cacheSim/RamModel.hh:120-133 | catching up all refreshes in one batch equals one refresh per elapsed period |
| `Sdram.LatencyByHistory` | src/cacheSim/RamModel.hh:54-91 | for every history in time order: an access takes ratio * (2 * words + 2 for a read + row) if and only if its host's controller is free, and the wait more otherwise; row is 0 after an access of this host to the same row of the bank, 4 after one to another row, 3 for an unused bank or if a multiple of 781 device cycles lies between, all in these numbers |
| `Sdram.RowCostIs` | src/cacheSim/RamModel.hh:66-80 | the row cost in numbers is the cost that the row state gives |
| `Sdram.CountersArePaid` | src/cacheSim/RamModel.hh:70-79 | the hit, miss and conflict counters are the numbers of accesses that paid 0, 3 and 4 cycles for their row |
| `Sdram.StallGrows` | src/cacheSim/RamModel.hh:62-64 | each access adds its wait for the controller to the stall counter |
| `Sdram.LatencyExactIff` | src/cacheSim/RamModel.hh:54-91 | from any state, the latency is the device cycles of the burst and of the row outcome if and only if the host's controller is free; otherwise the wait is added, and counted as a stall |
| `Sdram.CompletionPhase` | src/cacheSim/RamModel.hh:84-91 | a completion lands in the device cycle in which the controller becomes free, at the clock phase of the request |
| `Sdram.RowOutcome` | src/cacheSim/RamModel.hh:66-80 | hit, miss or conflict is decided by this host's previous access to the bank and by whether a multiple of 781 lies in between |
| `Sdram.ReplayScheduled` | src/cacheSim/RamModel.hh:120-133 | after every access the refresh count is the device time divided by 781, the next refresh is the next multiple, and the outcomes add up to the accesses |
| `Sdram.RefreshInIff` | src/cacheSim/RamModel.hh:120-133 | a refresh falls between two device times if and only if their period numbers differ |
| `SdramClass.SdramModel.constructor` | src/cacheSim/RamModel.hh:51-52 | closed banks, free controllers, first refresh at 781, as a function of the old state |
| `SdramClass.SdramModel.CheckRefresh` | src/cacheSim/RamModel.hh:120-133 | the batch catch-up closes all banks, as a function of the old state |
| `SdramClass.SdramModel.RowExtra` | src/cacheSim/RamModel.hh:70-80 | row cost and outcome counter, which `Sdram.LatencyByHistory` and `Sdram.CountersArePaid` give in numbers, as a function of the old state |
| `SdramClass.SdramModel.Access` | src/cacheSim/RamModel.hh:54-91 | latency and state change of one request, as a function of the old state |
| `SdramClass.SdramModel.ResetStats` | src/cacheSim/RamModel.hh:93-105 | reset to the initial timing state, as a function of the old state |
| `Arbiter.AcceptOk` | src/cacheSim/RamConn.cc:13-37 | recv_req keeps both the invariant of a quiet channel and that inside a response, so a host may send from its own response |
| `Arbiter.TakeOk` | src/cacheSim/RamConn.cc:41-54 | a due completion delivers to the host that is served and frees its slot |
| `Arbiter.PickOk` | src/cacheSim/RamConn.cc:56-72 | choosing the next request restores the invariant: busy if and only if a host is served, nothing waits on an idle channel |
| `Arbiter.CompletionOk` | src/cacheSim/RamConn.cc:40-106 | a whole completion keeps the channel invariant whatever requests the host sends in between |
| `Arbiter.DeliveredOnce` | src/cacheSim/RamConn.cc:40-106 | each request is charged at most as often as accepted and delivered at most as often as charged; on an idle channel all three agree |
| `Arbiter.LowestHostNext` | src/cacheSim/RamConn.cc:56-72 | host 0 is next if and only if no other host waits |
| `Arbiter.LatencyByAddress` | src/main.cc:505-523 | the latency of a request by its address range: SRAM latency for CLINT and SRAM, an SDRAM access with its fields for the memory ranges, MMIO latency elsewhere |
| `Arbiter.AcceptServes` | src/cacheSim/RamConn.cc:13-37 | a request to an idle channel is due its latency after this tick; one to a busy channel only fills its slot |
| `Arbiter.PickServes` | src/cacheSim/RamConn.cc:56-72 | after a completion the request of the highest waiting host is due its latency after the next tick |
| `Arbiter.TakeDelivers` | src/cacheSim/RamConn.cc:41-54 | a completion delivers the request in service and empties its slot alone |
| `Arbiter.Highest` | src/cacheSim/RamConn.cc:59-71 | the scan from the top finds the highest host with a request |
| `ArbiterClass.RAMArbiter.constructor` | src/cacheSim/RamConn.hh:169-190 | both channels idle, as a function of the old channel and memory |
| `ArbiterClass.RAMArbiter.LatOf` | src/cacheSim/RamConn.hh:270-282 | one latency, one device access on record, as a function of the old channel and memory |
| `ArbiterClass.RAMArbiter.RecvReq` | src/cacheSim/RamConn.cc:13-37 | the request enters its slot, and an idle channel starts it, as a function of the old channel and memory |
| `ArbiterClass.RAMArbiter.TakeRead` | src/cacheSim/RamConn.cc:41-54 | the read half up to the response, as a function of the old channel and memory |
| `ArbiterClass.RAMArbiter.Scan` | src/cacheSim/RamConn.cc:59-71 | the downward loop stops at the highest host with a request, as a function of the old channel and memory |
| `ArbiterClass.RAMArbiter.PickRead` | src/cacheSim/RamConn.cc:56-73 | the read half after it, as a function of the old channel and memory |
| `ArbiterClass.RAMArbiter.TakeWrite` | src/cacheSim/RamConn.cc:75-87 | the write half up to the response, as a function of the old channel and memory |
| `ArbiterClass.RAMArbiter.PickWrite` | src/cacheSim/RamConn.cc:89-105 | the write half after it, as a function of the old channel and memory |
| `ArbiterClass.RAMArbiter.ResetStats` | src/cacheSim/RamConn.hh:238-246 | reset of the devices, as a function of the old channel and memory |
| `Routing.FindDevice` | src/cacheSim/RamConn.hh:261-268 | the first entry that contains the address decides, else the default device |
| `Routing.DeviceRanges` | src/main.cc:514-528 | the map as a chain of ranges |
| `Routing.CacheableIffSdram` | src/pipeSim/Pipeline.cc:23-28 | over all 32-bit addresses, cacheable for the load/store unit and backed by SDRAM are the same |
| `Routing.BlockSameSide` | src/cacheSim/CacheBase.cc:34-37 | a block never straddles the two sides, so an evicted block belongs where its fill came from |
| `MemoryRuns.DeliveredOnTime` | src/cacheSim/RamConn.cc:13-106 | end to end: every SDRAM request reaches its host exactly the documented latency (`Sdram.DocLatency`, in numbers) after its service began, which is the tick of the access for a request accepted by an idle channel and the next one for a request picked at a completion |
| `MemoryRuns.LatencyIsDocumented` | src/cacheSim/RamModel.hh:54-91 | in every reachable state of caches, arbiter and SDRAM together, every access took the documented latency, in the numbers of `Sdram.DocLatency`, and `ctrl_stall_` is 0 |
| `MemoryRuns.NoAssertFails` | src/cacheSim/CacheBase.cc:238-349 | no assert of caches, ports or arbiter fails, for every order of fetches, loads, stores, flushes, resets and updates |
| `MemoryRuns.RoutingAgrees` | src/pipeSim/Pipeline.cc:503-541 | every request of the data cache, refill or eviction, goes to SDRAM, and the bypass port never does |
| `MemoryRuns.FetchWaitsForOne` | src/cacheSim/RamConn.cc:56-72 | an instruction fetch that waits is the next to be served: it waits for at most the one service under way |
| `MemoryRuns.NoDuplicates` | src/cacheSim/RamConn.cc:13-106 | in the composed system each request is accepted once and charged and delivered at most once |
| `MemorySystemInv.StepInv` | src/main.cc:575-622 | every event of the composed system keeps the invariant that links hosts, slots, controllers and addresses |
| `MemorySystemInv.SendStep` | src/cacheSim/RamConn.cc:13-37 | a host that waits for nothing sends one request: its slot is free and its controller idle |
| `MemorySystemInv.ReadHalfInv` | src/cacheSim/RamConn.cc:41-73 | the read half of the arbiter update, with the response of the host in between |
| `MemorySystemInv.WriteHalfInv` | src/cacheSim/RamConn.cc:75-106 | the write half |
| `MemorySystemInv.AccessInv` | src/pipeSim/Pipeline.cc:503-541 | a load or store goes to the data cache or, uncacheable, to the bypass port, with one of them busy at a time |
| `MemorySystemInv.DcTickInv` | src/cacheSim/CacheBase.cc:260-349 | an update of the data cache sends at most one request, and only when none is out |
| `MemorySystemInv.IcTickInv` | src/cacheSim/CacheBase.cc:260-349 | the same for the instruction cache, which only reads |
| `MemoryTiming.LatOfExact` | src/cacheSim/RamConn.hh:270-282 | for a host whose controller is free the charged latency is the documented one and covers the controller until the completion |
| `MemoryTiming.AcceptTiming` | src/cacheSim/RamConn.cc:20-36 | a host without an outstanding request finds its controller free |
| `MemoryTiming.CompleteTiming` | src/cacheSim/RamConn.cc:41-73 | a completion comes in the tick it is due, and the next request starts with a free controller |
| `BlockOrigin.UpdateGood` | src/cacheSim/CacheBase.cc:260-349 | every line, pending eviction and memory request of the data cache carries an address that the load/store unit called cacheable |
| `BlockOrigin.ReadRespGood` | src/cacheSim/CacheBase.cc:238-248 | a refill installs a block of the same side as the requested address |
| `WholeSystem.NoAssertFails` | src/main.cc:575-622 | pipeline, caches, ports, arbiter and SDRAM in one machine: no assert of any of them fails, for every order of their events |
| `WholeSystem.HalvesAgree` | src/pipeSim/Pipeline.cc:629-643 | the reads the pipeline waits for are exactly the requests in the instruction cache, in order, and it waits for a load or store exactly while the data side is not idle |
| `WholeSystem.AnswerFindsItsOwner` | src/pipeSim/Pipeline.cc:242-258 | the read that the instruction cache answers is the oldest the pipeline waits for, and unless it is an orphan the queue entry that issued it is the one woken |
| `WholeSystem.HalvesReachable` | src/main.cc:575-622 | in a run of the whole both halves are in states of their own runs, so all results about either hold in it |
| `WholeSystem.StepInv` | src/main.cc:575-622 | every event keeps the agreement of the halves |
| `WholeSystem.MemoryInv` | src/pipeSim/Pipeline.cc:503-541 | a load or store is sent only to an idle data side and a ready port |
| `WholeSystem.FetchInv` | src/pipeSim/Pipeline.cc:81-217 | a fetch sends at most one read, numbered by the pipeline, to a ready cache |
| `WholeSystem.HardwareInv` | src/pipeSim/Pipeline.cc:629-643 | an answer of a cache or port runs exactly one response handler, whose asserts hold |
| `WholeSystem.UpdateAnswers` | src/cacheSim/CacheBase.cc:201-235 | an update answers at most the request at the end of the pipe |
| `RequestsOut.LoadStoreGoes` | src/pipeSim/Pipeline.cc:503-541 | a load or store of an address in memory goes to the data cache, or to the port in its place; any other goes to the bypass port; always one aligned word, a store as a write |
| `RequestsOut.MemoryGoes` | src/pipeSim/Pipeline.cc:472-541 | the load or store in Execute leaves once, with its own address, as a write if and only if it is a store |
| `RequestsOut.FetchGoes` | src/pipeSim/Pipeline.cc:92-201 | a read of the front end reaches the instruction cache with the address of the launched instruction, or the next sequential or wrong-path one |
| `RequestsOut.CacheSends` | src/cacheSim/CacheBase.cc:285-317 | a cache reads one whole line at the address of the request that missed, after writing one whole line for the dirty block taken out last, if there was one |
| `RequestsOut.ResetRestarts` | src/cacheSim/RamModel.hh:93-105 | a reset of the statistics leaves the SDRAM with no open row, free controllers and the first refresh at 781, and changes nothing else |
| `RequestsOut.FlushGoesToBoth` | src/cacheSim/CacheBase.cc:432-435 | FENCE.I raises the flush of both caches and changes nothing else |
| `CacheBase.AccessOk` | src/cacheSim/CacheBase.cc:83-120 | a lookup changes one stamp on a hit and empties exactly the victim way on a miss; tags of a set stay distinct and map to it |
| `CacheBase.FillOk` | src/cacheSim/CacheBase.cc:122-142 | a fill of an absent block keeps tags distinct |
| `CacheBase.FillSets` | src/cacheSim/CacheBase.cc:122-142 | a fill replaces exactly one line by a valid clean one with the block's tag |
| `CacheBase.TouchOk` | src/cacheSim/ReplPolicy.cc:18-31 | a touch changes stamps or tree bits only |
| `CacheBase.TagFacts` | src/cacheSim/CacheBase.cc:19-37 | a block address is aligned and lies in the set of the address |
| `Victims.LaggedVictim` | src/cacheSim/CacheBase.cc:72-81 | with the lag, from any state: the way that a miss empties is the lowest empty way of the set that the lookup before it used, as that lookup left it; if there is none, that set's first least stamp under LRU or the way its tree bits point at |
| `Victims.OwnVictim` | src/cacheSim/CacheBase.cc:62-70 | without the lag, or before any lookup, the same in the set of the miss |
| `Victims.VictimByHistory` | src/cacheSim/CacheBase.cc:62-120 | the same over every history of lookups, refills, writes and flushes, told by the history alone: which set by the last lookup; under LRU the way whose last use is longest ago; under PLRU the sibling of the way used last in the half not used last (or the other way of two) |
| `Victims.HistoryRecorded` | src/cacheSim/ReplPolicy.cc:18-126 | in every history the stamps are the ticks of the last uses, the tree bits are the uses of the set in order, and the lagged set is that of the last lookup |
| `PipeCacheVictims.MissEmpties` | src/cacheSim/CacheBase.cc:460-476 | the same for every run of the pipelined cache; a write-back cache with more than one way has the lag |
| `PipeCacheVictims.RunFollows` | src/cacheSim/CacheBase.cc:260-349 | each run of the pipelined cache is such a history of its cache |
| `LruStack.LruContents` | src/cacheSim/ReplPolicy.cc:8-31 | with LRU and no victim lag each set holds, in stamp order, the most recently used blocks that map to it since the last flush, for every stream whose stamps grow |
| `LruStack.HitIff` | src/cacheSim/CacheBase.cc:83-120 | the next access hits if and only if its block is among the `assoc` most recent of its set |
| `LruStack.MoreWaysHitMore` | src/cacheSim/CacheBase.cc:83-120 | stack property: with equal sets and lines every hit with fewer ways is a hit with more, for every stream and for any two timings, one for each cache |
| `LruStack.RecencyMeaning` | src/cacheSim/ReplPolicy.cc:18-31 | the recency list is the blocks of the set ordered by their last access |
| `Plru.BitsAreHistory` | src/cacheSim/ReplPolicy.cc:105-126 | the tree bits are the half touched last and the way touched last in each half |
| `Plru.VictimIsOldOfOldHalf` | src/cacheSim/ReplPolicy.cc:82-102 | with four ways the victim is the less recent way of the half not touched last |
| `Plru.VictimOfTwo` | src/cacheSim/ReplPolicy.cc:87-91 | with two ways the victim is the one not touched last |
| `Plru.TouchedIsSafe` | src/cacheSim/ReplPolicy.cc:82-126 | a touched way is no victim until at least two other ways have been touched |
| `Plru.TwoOthersSuffice` | src/cacheSim/ReplPolicy.cc:82-126 | two others are enough: its sibling, then a way of the other half |
| `Plru.FillsRotate` | src/cacheSim/ReplPolicy.cc:82-146 | runs of misses are periodic and any `assoc` victims in a row are distinct, from any bits |
| `PipeCacheRuns.NoAssertFails` | src/cacheSim/CacheBase.cc:238-349 | no assert of the cache fails in a reachable state |
| `PipeCacheRuns.AnsweredInOrder` | src/cacheSim/CacheBase.cc:260-349 | each accepted request is answered once and in order; what is not answered is in the pipe |
| `PipeCacheRuns.DroppedIsWritten` | src/cacheSim/CacheBase.cc:286-318 | the dirty blocks that replacement took out are written back once each, in order, at most one still to go |
| `PipeCacheRuns.MissAccounting` | src/cacheSim/CacheBase.cc:279-318 | each miss sends at most one write, then exactly one read, followed by one replay; read and write are never out together |
| `PipeCacheRuns.TagsDistinct` | src/cacheSim/CacheBase.cc:83-142 | valid lines of a set hold different blocks that map to it |
| `PipeCacheRuns.SavedIsEmptied` | src/cacheSim/CacheBase.cc:460-476 | the dirty line that `save_evict_info` saves is exactly the line that `access` then empties, also under lagged victim choice |
| `PipeCacheRuns.DirtyLostIffFlush` | src/cacheSim/CacheBase.cc:260-349 | an update keeps every dirty block or records it as taken out, if and only if it does not flush: a flush fires when one is pending and the pipe is empty or is emptied by answering its only entry |
| `PipeCacheDirty.DirtyIsOwed` | src/cacheSim/CacheBase.cc:201-235 | in every reachable state the dirty blocks are exactly those of answered writes that have since neither been taken out for a write-back nor flushed |
| `PipeCacheDirty.OnlyOwedIsDropped` | src/cacheSim/CacheBase.cc:460-476 | whatever an update takes out for a write-back was dirty before it, or is the block of the write that it answered |
| `PipeCacheDirty.HitExact` | src/cacheSim/CacheBase.cc:219-222 | answering a write makes exactly its block dirty, answering a read none |
| `PipeCacheDirty.LookUpExact` | src/cacheSim/CacheBase.cc:83-120 | a lookup takes out at most one dirty block, records it, and leaves all others as they are |
| `PipeCacheDirty.RefillExact` | src/cacheSim/CacheBase.cc:238-248 | a refill makes nothing dirty and cleans nothing |
| `PipeCacheDirty.FlushAcceptsNothing` | src/cacheSim/CacheBase.hh:244-253 | in every run during which a flush is pending the cache accepts no request |
| `PipeCacheDirty.HitLeavesReady` | src/cacheSim/CacheBase.cc:320-348 | a hit or replay with nothing right behind it and no flush pending leaves the cache ready for the next request |
| `PipeCacheRuns.RefillKeepsDirty` | src/cacheSim/CacheBase.cc:238-248 | a refill keeps every dirty block |
| `PipeCacheRuns.FlushForgetsDirty` | src/cacheSim/CacheBase.cc:437-457 | a concrete run (write, refill, replay, FENCE.I, update) after which a written block is gone without a write-back |
| `PipeCacheLru.ContentsAreRecent` | src/cacheSim/CacheBase.cc:260-349 | in every run of the pipelined cache with LRU, no victim lag and ticks in order, each set holds the most recent blocks of the requests looked up since the last flush whenever no miss is in progress |
| `PipeCacheLru.NextHitIff` | src/cacheSim/CacheBase.cc:90-105 | the next lookup hits if and only if its block is among the `assoc` most recent of its set |
| `PipeCacheLru.LookedInOrder` | src/cacheSim/CacheBase.cc:272-347 | requests are looked up once each and in the order they were asked, the rest is in the pipe |
| `PipeCacheLru.MoreWaysHoldMore` | src/cacheSim/CacheBase.cc:83-120 | two pipelined caches with equal sets and lines that looked up the same requests, each in its own time and with its own depth: the one with more ways holds whatever the other holds |
| `PipeCacheLru.UpdatedInv` | src/cacheSim/CacheBase.cc:260-349 | one update keeps the lists, also when it looks up a hit and then the next miss in the same tick |
| `PipeCacheLru.RefilledInv` | src/cacheSim/CacheBase.cc:238-248 | a refill completes the access that its lookup began |
| `PipeCacheLru.FollowIsRun` | src/cacheSim/CacheBase.cc:260-349 | the runs with history are runs of the cache |
| `PipeCacheRuns.ReplayAnswers` | src/cacheSim/CacheBase.cc:260-280 | the update after a refill hits and answers the request that missed |
| `PipeCacheInv.UpdateInv` | src/cacheSim/CacheBase.cc:260-349 | an update keeps the protocol invariant, its assert holds, and it sends only when nothing is out |
| `PipeCacheInv.MissStepInv` | src/cacheSim/CacheBase.cc:279-318 | the read carries the missing address and comes after the write has been answered; the write carries the saved victim |
| `PipeCacheInv.ReadRespInv` | src/cacheSim/CacheBase.cc:238-248 | the refill lands on the way the miss emptied, and the block is then found |
| `PipeCacheClass.PipeCacheModel.constructor` | src/cacheSim/CacheBase.hh:225-241 | an empty cache that is ready |
| `PipeCacheClass.PipeCacheModel.FindWay` | src/cacheSim/CacheBase.cc:90-105 | the tag scan |
| `PipeCacheClass.PipeCacheModel.Present` | src/cacheSim/CacheBase.cc:144-154 | whether a valid line of the set holds the block |
| `PipeCacheClass.PipeCacheModel.EmptyWay` | src/cacheSim/CacheBase.cc:63-69 | the first invalid way |
| `PipeCacheClass.PipeCacheModel.GetVictim` | src/cacheSim/ReplPolicy.cc:8-16 | the first way with the smallest stamp, or the way the tree bits name |
| `PipeCacheClass.PipeCacheModel.MissVictimWay` | src/cacheSim/CacheBase.cc:62-81 | the victim, from the lagged set when lag is on, as `Victims.LaggedVictim` and `Victims.OwnVictim` say |
| `PipeCacheClass.PipeCacheModel.TouchLine` | src/cacheSim/ReplPolicy.cc:18-31 | stamp or tree bits after a use |
| `PipeCacheClass.PipeCacheModel.LookupLine` | src/cacheSim/CacheBase.cc:83-120 | the way that hit or the way emptied, as a function of the old state |
| `PipeCacheClass.PipeCacheModel.HandleFill` | src/cacheSim/CacheBase.cc:122-142 | the block is valid, clean and touched, as a function of the old state |
| `PipeCacheClass.PipeCacheModel.Request` | src/cacheSim/CacheBase.cc:382-414 | read_req and write_req of a ready cache, as a function of the old state |
| `PipeCacheClass.PipeCacheModel.FlushAll` | src/cacheSim/CacheBase.cc:432-435 | a flush is pending; reachability is kept, as a function of the old state |
| `PipeCacheClass.PipeCacheModel.SaveEvictInfo` | src/cacheSim/CacheBase.cc:460-476 | a dirty victim is remembered with its address, as a function of the old state |
| `PipeCacheClass.PipeCacheModel.LookUpBack` | src/cacheSim/CacheBase.cc:272-275 | save, then access, for the last entry, as a function of the old state |
| `PipeCacheClass.PipeCacheModel.HandleHit` | src/cacheSim/CacheBase.cc:201-235 | the answer, and for every write the dirty bit, as `PipeCacheDirty.DirtyIsOwed` says,, as a function of the old state |
| `PipeCacheClass.PipeCacheModel.InvalidateSets` | src/cacheSim/CacheBase.cc:437-444 | the flush loops over sets and lines |
| `PipeCacheClass.PipeCacheModel.HandleFlush` | src/cacheSim/CacheBase.cc:437-457 | all lines invalid, pipe and flags cleared, as a function of the old state |
| `PipeCacheClass.PipeCacheModel.PipeEmpty` | src/cacheSim/CacheBase.cc:321-324 | the pipe holds no entry |
| `PipeCacheClass.PipeCacheModel.ShiftEntries` | src/cacheSim/CacheBase.cc:329-332 | the shift loop moves every entry one place |
| `PipeCacheClass.PipeCacheModel.ProbeBack` | src/cacheSim/CacheBase.cc:334-347 | the new last entry is looked at in the same update |
| `PipeCacheClass.PipeCacheModel.AdvancePipe` | src/cacheSim/CacheBase.cc:320-348 | flush, or shift and probe, as a function of the old state |
| `PipeCacheClass.PipeCacheModel.MissPath` | src/cacheSim/CacheBase.cc:285-317 | announce, evict, wait, read, as a function of the old state |
| `PipeCacheClass.PipeCacheModel.Update` | src/cacheSim/CacheBase.cc:260-349 | update_impl of a cache that is due; reachability is kept |
| `PipeCacheClass.PipeCacheModel.RecvMemResp` | src/cacheSim/CacheBase.cc:238-257 | recv_mem_resp; reachability is kept |

## Left out

- CoreRuns.HistoryIsRightPath: assumes, for TAGE, a fetch queue of at most 509 entries (the simulator uses 8); a longer one could outrun the snapshot ring, which `History.RepairSkipped` describes.
- CoreRuns.WritesInTraceOrder: commit order per register only; read-after-write readiness (`reg_ready_`) is an input of Decode, because a load response overwrites the entry of a younger writer.
- PipelineClass.Pipeline.Update: which stages are due is an input, so nothing is claimed about wake-up ticks, progress or skipped idle ticks; the wrong-path program counter, its redirect registers and their statistics are inputs too.
- PipelineClass.Pipeline.DoExecute: the BTB and the counter tables behind the prediction are inputs; the update of the BTB and its read/write conflict are not part of this model.
- PipelineClass.Pipeline.DoWriteback: the stall accounting of a commit is in `Stall`, apart from the pipeline state.
- PipeCacheClass.PipeCacheModel.Request: writes of a write-through cache are not modelled, because the simulator never writes to its instruction cache and its data cache writes back.
- PipeCacheClass.PipeCacheModel.HandleHit: a hit answers at once; the delayed response of a configuration that the simulator does not use is not modelled.
- PipeCacheClass.PipeCacheModel.Update: the tick from which an update is due (`blocked_until_`) is left open; prefetching is off.
- MemoryRuns.DeliveredOnTime: ticks and counters do not wrap, and the CPU runs at 100 MHz or more.
- MemoryRuns.FetchWaitsForOne: no host sends from inside its own response, as none of the caches and ports does; `Arbiter.CompletionOk` covers hosts that do.
- PipeCacheLru.ContentsAreRecent: of `blocked_until_` it uses only that an answer or a refill is followed by the next update at least one tick later.
- WholeSystem.NoAssertFails: the order in which the devices are updated within a tick is left open, which covers that of the main loop.
- TageClass.TagePredictor.TrainOn: the counters of allocations, overflows and skipped updates are not kept, nor snapshot fields that nothing reads.
- Contents of memory and caches: the simulator is built for timing only.
- Prefetch fills and `pollute`: they install lines outside the miss protocol.
- GShare, Tournament and Bimodal counter tables, BTFNT, and the BTB organisations: directions and targets are inputs.
- SRRIP and round-robin replacement.
- The store buffer, which the simulator refuses to build.
- JSON output, area estimates, command line, trace reading, and the scripts.
