# PaceServe, modelled and proved in Dafny

PaceServe serves large language models. Each of its engines runs step by step: a scheduler picks
a batch under several budgets and hands out blocks of a paged key-value cache, the batch is
executed, every sequence in it gets a token, and what has finished leaves. Low-priority engines
pass requests that would miss their deadline to a controller, which passes them on to
high-priority engines; decode instances take in sequences whose caches come from elsewhere.

This project models that core and proves what it is for. `dafny verify dfyconfig.toml` checks it.

The pieces, from the bottom up:

- **Paged memory.** `Sequences` is a request as the schedulers see it; `Pages` and
  `PagedSequence` its logical blocks; `BlockPool` and `BlockSpace` the physical blocks, as counts
  and as themselves. The class `BlockSpaceManager` keeps a partition of the blocks, and the slots
  of any two tokens differ.
- **Schedulers.** Each is given twice: as functions on values, with which the theorems are
  stated, and as classes whose loops are proved to compute those functions. `Reserve` is the
  decode loop with preemption that all of them share; `EngineCore` the invariant and the effect of
  executing a batch; `DecodePhase`, `PrefillFirst` (vLLM and high priority), `LowPriority`,
  `Sarathi` and `DecodeInstance` the schedulers; `Scheduling`, `SequenceManager` and the modules
  ending in `Engine` their imperative form. `Budgets`, `Conservation`, `Termination`,
  `AdmissionFront`, `ScheduleExactly`, `EngineLife`, `EmptySteps`, `Stranding`, `Freezing` and
  `Worker` are theorems about the vLLM and high-priority engines, `LowPriorityChoices` and
  `OversizedPrompts` about the low-priority one, `SarathiChunks` and `SarathiFailure` about
  Sarathi's, `DecodeAdmission` and `DecodeLiveness` about the decode instance. What each scheduler
  plans is stated in closed form, over the state before the step: `ReserveExactly` does that for the
  loop they share.
- **Choices.** `Solver` is the greedy knapsack, `Deadline` the earliest-deadline order.
- **The cluster.** `Offloading` says what a low-priority step means for those it hands over,
  `Cluster` is the protocol over all interleavings of messages, `Instances` the loops at its ends,
  `RoundRobin` where they send things, `ClusterDelivery` that what is sent arrives.
- **Bookkeeping.** `SequenceState` is the status machine with its time accounting, `LengthCap` the
  length cap over a request's life, `TopologicalSort` the order in which configurations are rebuilt.

Assumptions. Pipeline size is one, the clock is read once per step, sequence ids are distinct,
prompts are not empty. Aborts, clock readings, estimated times, sampled tokens, matched stop
strings and tickets are arbitrary inputs. The engine theorems assume that no sequence can come to
need the whole pool (`Config.Fits`); `Stranding` and `DecodeLiveness` show that this is needed.
Termination also assumes distinct arrival times, and that an empty engine can take any prompt
within the limit.

Where the code and what is said about it differ, the model follows the code:

- Comments in the schedulers say that preempted sequences are added to the front of the waiting
  list. `_preempt` appends them to its end (paceserve/core/scheduler/base_scheduler.py:175), so
  the list need not be in arrival order. First come, first served rests on sorting, which is on by
  default; without it a step keeps the property exactly when nobody in the part of the list it gets
  through arrived after anybody behind it (`Conservation.FirstComeFirstServedExactly`), which the
  step of `Conservation.UnsortedServesTheFront` does not.
- `reset_for_recompute` does not lower `max_tokens`, so a request may outgrow its allowance
  (`LengthCap.CapKeptExactly`, `LengthCap.RecomputeOvershoots`).
- A step with an empty batch drops its preemptions. It happens exactly when the oldest running
  sequence holds the whole pool and no over-long prompt heads the waiting order
  (`EmptySteps.IdlesExactly`, `EmptySteps.EmptyStepStrands`). The sequence is then paused and
  waiting at once. It may be served again, but once it has grown past the prompt limit, or is
  dropped, its status change is illegal and the engine raises: `EmptySteps.RaisesExactly` and
  `Stranding.RunEndsExactly` say when, `Stranding.PoolFillerRaises` is such a run.
- The engines refuse to start with a pool too small for the longest prompt, but not with one too
  small for it above the watermark. A request within the limit that does not fit there is neither
  ignored nor admitted, and with nobody running the vLLM engine never does anything again, exactly
  then (`Freezing.FreezesExactly`, `Freezing.UnservableArrivalFreezes`).
- A prompt within the limit but longer than a batch is neither ignored nor taken by the low-priority
  scheduler (`OversizedPrompts.OversizedWaits`).
- On a decode instance a step with an empty batch leaves the preemption flag standing, and if
  nothing owns blocks then, for good: exactly when the oldest decoding sequence holds the whole pool
  and no other table is on its way (`DecodeLiveness.SticksExactly`, `DecodeLiveness.RunSticksExactly`;
  `DecodeLiveness.PoolFillingSequenceSticks` is such a run). A sequence too big for the pool does
  not raise the flag but keeps the queue behind it waiting (`DecodeLiveness.BigHeadStarves`).
- Sarathi does not remove an over-long sequence from the front of the queue; looking at it a second
  time is an illegal status change, which ends the step with an exception. A step raises exactly
  when its waiting loop gets to such a sequence, which can be told from the state before it
  (`SarathiFailure.FailsExactly`); a run from the idle engine does (`SarathiFailure.OverlongArrivalFails`),
  and with nobody over the limit none does (`SarathiFailure.NobodyOverlongSteps`).
- A status change that is rejected while running or paused still books the time since the last
  one (`SequenceState.TimeAccountingExactly`, `SequenceState.RejectedStopIsBookedTwice`); dropping
  a restarted request overwrites `scheduled_at` (`SequenceState.DroppedAccounting`,
  `SequenceState.DroppedRestartIsOverbooked`).
- The shortest-job-first waiting policy takes one argument where the scheduler passes two
  (paceserve/core/policy.py:44-47, paceserve/core/scheduler/vllm_scheduler.py:64), so sorting by
  arrival and not sorting are the two policies modelled.

## Model

| member | source | states |
|---|---|---|
| `BlockSpace.BlockAllocator.constructor` | paceserve/core/block_space_manager/base_block_space_manager.py:19-32 | the free list starts as the blocks 0 to n-1 in order |
| `BlockSpace.BlockAllocator.Allocate` | paceserve/core/block_space_manager/base_block_space_manager.py:34-39 | hands out the last free block; fails, changing nothing, exactly when none is free |
| `BlockSpace.BlockAllocator.Free` | paceserve/core/block_space_manager/base_block_space_manager.py:41-43 | the block goes to the end of the free list |
| `BlockSpace.BlockSpaceManager.constructor` | paceserve/core/block_space_manager/base_block_space_manager.py:57-74 | an empty table map, all blocks free, and the watermark rounded down |
| `BlockSpace.BlockSpaceManager.CanAllocate` | paceserve/core/block_space_manager/base_block_space_manager.py:81-87 | true exactly when the watermark stays free after the allocation |
| `BlockSpace.BlockSpaceManager.Allocate` | paceserve/core/block_space_manager/base_block_space_manager.py:89-97 | succeeds exactly when enough blocks are free; the partition survives if and only if no table is overwritten and no block is lost by running out half way |
| `BlockSpace.BlockSpaceManager.CanAppendSlot` | paceserve/core/block_space_manager/base_block_space_manager.py:99-101 | true exactly when a block is free |
| `BlockSpace.BlockSpaceManager.AppendSlot` | paceserve/core/block_space_manager/base_block_space_manager.py:103-113 | the partition survives, the old table is a prefix of the new one, and only a short table grows |
| `BlockSpace.BlockSpaceManager.FreeBlockTable` | paceserve/core/block_space_manager/base_block_space_manager.py:119-121 | each block of the table is returned once, in the order a set yields them |
| `BlockSpace.BlockSpaceManager.Free` | paceserve/core/block_space_manager/base_block_space_manager.py:123-129 | the table is gone, its blocks are free, the partition survives; unknown sequences change nothing |
| `BlockSpace.BlockSpaceManager.Reset` | paceserve/core/block_space_manager/base_block_space_manager.py:131-134 | every block is free again and no table is left |
| `BlockSpace.PartitionCounts` | paceserve/core/block_space_manager/base_block_space_manager.py:28-47 | free list and tables being a partition of the blocks, their lengths add up to the pool |
| `BlockSpace.SlotIsolation` | paceserve/core/block_space_manager/base_block_space_manager.py:50-51 | two positions, of one sequence or of two, never share a physical slot |
| `BlockSpace.FullTablesAreIsolated` | paceserve/core/block_space_manager/base_block_space_manager.py:136-138 | full tables give every position of the listed sequences a slot of its own |
| `PrefillFirstEngine.EveryBatchIsIsolated` | paceserve/core/scheduler/vllm_scheduler.py:88-151 | in every reachable state, whatever blocks stand behind the counts, every token of the scheduled batch has a slot and no two share one |
| `EngineCore.TableLengths` | paceserve/core/scheduler/base_scheduler.py:156-167 | between steps a running table has a block per logical block, or one fewer |
| `EngineCore.ScheduledIsCovered` | paceserve/core/scheduler/vllm_scheduler.py:145-151 | a scheduled sequence has exactly one block per logical block |
| `Pages.PagesAreExact` | paceserve/core/datatypes/sequence.py:73-93 | pages concatenate to the text, all but the last are full, none is empty, and their number is the text length over the block size, rounded up |
| `Pages.PagingIsUnique` | paceserve/core/datatypes/sequence.py:80-93 | any list of pages with full pages before the last is the paging of its text |
| `PagedSequence.LogicalTokenBlock.constructor` | paceserve/core/datatypes/block.py:19-28 | an empty block with its number |
| `PagedSequence.LogicalTokenBlock.AppendTokens` | paceserve/core/datatypes/block.py:39-46 | the tokens of the block grow by exactly those appended |
| `PagedSequence.Sequence.constructor` | paceserve/core/datatypes/sequence.py:24-65 | the logical blocks are the paging of the prompt |
| `PagedSequence.Sequence.AppendLogicalBlock` | paceserve/core/datatypes/sequence.py:73-78 | a new empty block, numbered by its place |
| `PagedSequence.Sequence.AppendTokensToBlocks` | paceserve/core/datatypes/sequence.py:80-93 | the blocks stay the paging of the text after any append |
| `PagedSequence.Sequence.AppendTokenId` | paceserve/core/datatypes/sequence.py:137-147 | output and blocks both grow by the token |
| `PagedSequence.Sequence.UpdatePromptTokensProcessed` | paceserve/core/datatypes/sequence.py:100-109 | the counter advances and the prompt is done exactly when it reaches the prompt length |
| `PagedSequence.Sequence.UpdatePromptTokensStageProcessed` | paceserve/core/datatypes/sequence.py:111-118 | the same for the stage counter |
| `PagedSequence.Sequence.CheckStop` | paceserve/core/datatypes/sequence.py:227-247 | stop string, length cap and end token, tested in that order |
| `PagedSequence.Sequence.ResetForRecompute` | paceserve/core/datatypes/sequence.py:204-212 | outputs become prompt, counters and flags restart, and the very same blocks are still the paging of the text |
| `PagedSequence.Sequence.ResetButNotRecompute` | paceserve/core/datatypes/sequence.py:214-225 | outputs become prompt, counters are full, the allowance shrinks, and the blocks are still the paging of the text |
| `Sequences.ResetsKeepText` | paceserve/core/datatypes/sequence.py:204-225 | neither reset changes the token list |
| `LengthCap.CutOffExactly` | paceserve/core/datatypes/sequence.py:237-240 | a token cuts the sequence off for length exactly when it reaches prompt length plus max_tokens and completes no stop string |
| `LengthCap.StoppedExactly` | paceserve/core/datatypes/sequence.py:227-247 | and stops it exactly when it completes a stop string, or is an end token that counts and not the one that reaches the cap; otherwise the sequence goes on |
| `LengthCap.CapOverLife` | paceserve/core/datatypes/sequence.py:204-240 | over any decodes and preemptions: the text grows by the generated tokens only, an unfinished sequence is below its cap, and the cap is the first one plus the outputs forgiven by recomputation |
| `LengthCap.SwappingKeepsTheCap` | paceserve/core/datatypes/sequence.py:214-240 | with swapping preemptions only, prompt length plus max_tokens never changes and the length cap is hit at exactly that length |
| `LengthCap.CapKeptExactly` | paceserve/core/datatypes/sequence.py:204-212 | the cap is kept if and only if no turn of the life drops the cache of a sequence that has output; otherwise it has grown |
| `LengthCap.RecomputeOvershoots` | paceserve/core/datatypes/sequence.py:204-212 | a life in which a request of two tokens ends with three |
| `EngineLife.StepIsTurns` | paceserve/engine/base_llm_engine.py:403-443 | an engine step is, for a sequence not dropped, the turn it is given: its own sample, a preemption that drops its cache, or nothing |
| `EngineLife.RunIsALife` | paceserve/engine/base_llm_engine.py:403-443 | so over any number of steps its state is the life those turns make |
| `EngineLife.CapOverRun` | paceserve/core/datatypes/sequence.py:204-240 | and in the engine a text is the prompt and what was sampled for it, never longer than the cap and what recomputation forgave |
| `Sequences.ByArrivalSorts` | paceserve/core/policy.py:15-34 | sorting by waiting time, longest first, gives arrival order |
| `Lists.StableSortStable` | paceserve/core/policy.py:20-24 | sorting keeps the order of ties |
| `Deadline.EarliestDeadlineFirstValue.ValueFunc` | paceserve/ai_utils/resource_item.py:57-67 | the reciprocal of the slack, infinite when the deadline cannot be met |
| `Deadline.ValueOrdersSlack` | paceserve/ai_utils/resource_item.py:64-67 | among meetable deadlines a higher value means a tighter or equal slack |
| `Deadline.ReorderIsEarliestDeadlineFirst` | paceserve/core/scheduler/high_priority_scheduler.py:63-79 | a permutation: meetable requests first in slack order, the others behind them in their original order |
| `Deadline.SlackIsTimeLeft` | paceserve/ai_utils/resource_item.py:57-65 | the slack is the time left until the last moment the prefill could start: arrival, or second arrival less the first wait, plus the deadline, less the estimate |
| `Deadline.ValueRanksUrgency` | paceserve/ai_utils/resource_item.py:64-67 | one value is at least another exactly when its request is not the less urgent: those past their deadline first, then the nearest deadline |
| `Solver.SolutionIsGreedy` | paceserve/ai_utils/solver.py:97-132 | picks within batch size and max_tokens, their tokens are the returned total, every item passed over would have overflowed the tokens of picks of at least its value, and unreached items are worth no more than any pick |
| `Solver.SolutionKeepsBudgets` | paceserve/ai_utils/solver.py:110-128 | each pick is made with something of compute, blocks, batch and tokens left by those before it, and the loop stops only with no item left or one of them spent |
| `Solver.PickItems` | paceserve/ai_utils/solver.py:98-129 | the loop sets frac to one for exactly the greedy picks |
| `Solver.Solve` | paceserve/ai_utils/solver.py:97-132 | items come back in input order with their fractions and the totals |
| `Reserve.ExactSplit` | paceserve/core/scheduler/vllm_scheduler.py:115-152 | kept list followed by the victims in reverse is the arrival-sorted running list; nobody kept arrived after a victim |
| `Reserve.Split` | paceserve/core/scheduler/low_priority_scheduler.py:135-182 | the same from any point of the loop and under any cap |
| `Reserve.RunOwns` | paceserve/core/scheduler/vllm_scheduler.py:120-152 | the loop loses no sequence and no block: victims give up exactly their tables |
| `Reserve.RunStocked` | paceserve/core/scheduler/vllm_scheduler.py:144-151 | whoever gets a slot has a block per logical block; untouched tables stay as they were |
| `Reserve.HeadGetsSlot` | paceserve/core/scheduler/vllm_scheduler.py:130-146 | the first sequence gets its slot unless it holds the whole pool |
| `Reserve.PoolHolderIsPreempted` | paceserve/core/scheduler/vllm_scheduler.py:130-143 | and when it does hold the whole pool nobody gets a slot and everyone is preempted, under any cap that lets anybody run |
| `ReserveExactly.KeepsMost` | paceserve/core/scheduler/vllm_scheduler.py:115-152 | the loop in closed form, under any cap: it keeps the longest prefix of the sorted list in which everyone who asks finds a block free once the rest is preempted, and preempts that rest, the last first |
| `ReserveExactly.PreemptsNobodyExactly` | paceserve/core/scheduler/vllm_scheduler.py:130-143 | nobody is preempted if and only if for everyone who asks the free blocks are more than the short tables of those who ask before |
| `ReserveExactly.DecodingKeepsMost` | paceserve/core/scheduler/vllm_scheduler.py:144-152 | where everyone is decoding, kept and victims are the two parts of the list, and the slots go to the kept as far as the cap allows |
| `Reserve.SlotsAreKept` | paceserve/core/scheduler/vllm_scheduler.py:144-152 | the new running list is exactly the sequences given a slot |
| `Scheduling.BaseScheduler.constructor` | paceserve/core/scheduler/base_scheduler.py:29-76 | empty queues and a fresh block manager |
| `Scheduling.BaseScheduler.AddSeq` | paceserve/core/scheduler/base_scheduler.py:81-83 | arrivals go to the end of the waiting list |
| `Scheduling.BaseScheduler.AbortLongWaiting` | paceserve/core/scheduler/base_scheduler.py:95-112 | overdue waiting sequences leave, in order, marked aborted; the others keep their order |
| `Scheduling.BaseScheduler.CheckRequestPromptLength` | paceserve/core/scheduler/base_scheduler.py:177-186 | over-long prompts are marked ignored, others untouched |
| `Scheduling.BaseScheduler.Preempt` | paceserve/core/scheduler/base_scheduler.py:169-175 | the table is freed and the sequence goes to the end of the waiting list |
| `Scheduling.BaseScheduler.AppendSlot` | paceserve/core/scheduler/base_scheduler.py:162-167 | with a block free the allocation cannot fail |
| `Scheduling.BaseScheduler.Allocate` | paceserve/core/scheduler/base_scheduler.py:156-157 | with enough blocks free the allocation cannot fail |
| `Scheduling.BaseScheduler.FreeFinishedSeqs` | paceserve/core/scheduler/base_scheduler.py:143-147 | finished sequences leave the running list with their blocks |
| `Scheduling.BaseScheduler.MakeRoom` | paceserve/core/scheduler/vllm_scheduler.py:130-143 | preempts from the tail until a block is free or nobody else is left, as small steps of the loop |
| `Scheduling.BaseScheduler.Serve` | paceserve/core/scheduler/vllm_scheduler.py:128-151 | one decoding sequence gets its slot or is preempted itself |
| `Scheduling.BaseScheduler.ReserveSlots` | paceserve/core/scheduler/vllm_scheduler.py:115-152 | the nested loops compute the small-step function, whose closed form is KeepsMost; what they preempt is executing and no allocation fails |
| `EngineCore.ExecutedIsSettled` | paceserve/core/sequence_manager/base_sequence_manager.py:131-165 | an executed batch entry has finished, or is between two decodes or two chunks with the blocks it holds |
| `EngineCore.CompleteInv` | paceserve/engine/base_llm_engine.py:273-291 | executing a well-scheduled batch and freeing what finished re-establishes the invariant |
| `EngineCore.CompleteConserves` | paceserve/core/scheduler/base_scheduler.py:143-151 | only finished sequences leave the running list |
| `SequenceManager.ResetPreempted` | paceserve/core/sequence_manager/base_sequence_manager.py:86-90 | exactly the preempted sequences are reset, and each was executing |
| `SequenceManager.ResumeScheduled` | paceserve/core/sequence_manager/base_sequence_manager.py:94-96 | exactly the scheduled sequences are resumed, and each was waiting or paused |
| `SequenceManager.UpdatePrompt` | paceserve/core/sequence_manager/base_sequence_manager.py:149-158 | both prompt counters advance by the chunk, within the prompt |
| `SequenceManager.OnStepCompleted` | paceserve/core/sequence_manager/base_sequence_manager.py:131-165 | exactly the batch advances its prompts, is paused, and appends a token where the prompt is done |
| `SequenceManager.RunBatch` | paceserve/core/sequence_manager/base_sequence_manager.py:75-165 | the three loops in sequence, every assertion in them holding |
| `SequenceManager.BatchExecutes` | paceserve/core/sequence_manager/base_sequence_manager.py:37-41 | the loops are the execution function of the recomputing schedulers |
| `SequenceManager.SwapBatchExecutes` | paceserve/core/sequence_manager/base_sequence_manager.py:43-49 | and, with the other reset, that of the decode instance |
| `SequenceManager.ScheduledIsAccepted` | paceserve/core/sequence_manager/base_sequence_manager.py:37-65 | what the schedulers hand over meets every assertion of the manager |
| `DecodePhase.OldestIsSafe` | paceserve/core/scheduler/vllm_scheduler.py:115-152 | the earliest arrival running is given a slot and never preempted, so a decode phase with anything running has a batch |
| `DecodePhase.DecodeSchedules` | paceserve/core/scheduler/vllm_scheduler.py:115-152 | the decode phase hands over a batch whose tables are full and whose victims are decoding |
| `DecodePhase.DecodeMoves` | paceserve/core/scheduler/base_scheduler.py:169-175 | preemption moves sequences between the lists without loss or copies |
| `PrefillFirst.AdmissionOutcome` | paceserve/core/scheduler/vllm_scheduler.py:66-95 | admission hands each admitted prompt all its blocks, leaves running tables alone and loses nobody |
| `PrefillFirst.ScheduleIsSound` | paceserve/core/scheduler/vllm_scheduler.py:47-166 | every schedule call hands over a well-scheduled batch, and one without a batch preempts nobody |
| `PrefillFirst.StepKeepsInv` | paceserve/engine/base_llm_engine.py:403-443 | every step of the vLLM and high-priority engines keeps the invariant |
| `PrefillFirst.ArriveKeepsInv` | paceserve/core/scheduler/base_scheduler.py:81-83 | arrivals keep it |
| `PrefillFirst.ReachableInv` | paceserve/engine/base_llm_engine.py:403-443 | over every run: waiting sequences have no output, no processed prompt and no blocks; running ones are between two decodes with matching tables |
| `Budgets.AdmissionBudgets` | paceserve/core/scheduler/vllm_scheduler.py:66-95 | admitted prompts keep the token budget, the watermark and a strict sequence limit, and admission stops only at a prompt that would break one |
| `Budgets.RunKeepsWidth` | paceserve/core/scheduler/high_priority_scheduler.py:100-103 | where the limit is strict the running list never exceeds max_num_seqs in any run |
| `Conservation.StepConserves` | paceserve/core/scheduler/base_scheduler.py:95-175 | queues before a step are queues after it plus aborted, ignored and finished, each sequence once; leavers have a finished status and nobody who stays has |
| `AdmissionFront.AdmitTakesFront` | paceserve/core/scheduler/vllm_scheduler.py:66-95 | the admission loop in closed form: it gets through the part of the order whose every prompt is over-long or fits behind the fitting ones before it, in prefix sums of blocks and tokens; of that part it admits the fitting and ignores the others, in order, and the rest stays |
| `Conservation.PassesExactly` | paceserve/core/scheduler/vllm_scheduler.py:66-95 | a step takes or ignores one and leaves another waiting if and only if the first stands in that part of the order and the second behind it |
| `Conservation.FirstComeFirstServedExactly` | paceserve/core/scheduler/vllm_scheduler.py:63-95 | under every policy a step serves first come, first served if and only if nobody in the part it gets through arrived after anybody behind it |
| `Conservation.AdmissionIsFirstComeFirstServed` | paceserve/core/scheduler/vllm_scheduler.py:63-95 | so vLLM does with the sorting policy always, and without it whenever the list is in arrival order |
| `Conservation.UnsortedServesTheFront` | paceserve/core/scheduler/vllm_scheduler.py:63-95 | and a case in which it does not: of two requests for the only place the one in front is taken, however late it came |
| `Conservation.AdmissionIsEarliestDeadlineFirst` | paceserve/core/scheduler/high_priority_scheduler.py:63-112 | no request is taken while one with a nearer deadline, that can still be met, stays waiting |
| `ScheduleExactly.PlanInClosedForm` | paceserve/core/scheduler/vllm_scheduler.py:47-166 | the whole plan: the front of the waiting order where there is one, and otherwise the decodes, of which as many are kept as find blocks, the youngest preempted first |
| `ScheduleExactly.DecodePreemptsNobodyExactly` | paceserve/core/scheduler/vllm_scheduler.py:130-143 | a decode phase preempts nobody if and only if the free blocks are more than the short tables of those who arrived before, for everyone running |
| `Conservation.EveryRequestFinishes` | paceserve/core/scheduler/vllm_scheduler.py:47-166 | without arrivals every request has a finished status after a number of steps read off the state |
| `Termination.Drains` | paceserve/core/scheduler/vllm_scheduler.py:63-152 | without arrivals nothing is waiting or running after as many steps as the rank of the state |
| `Termination.StepDrops` | paceserve/core/scheduler/vllm_scheduler.py:63-152 | every step with work left lowers the vector of allowances, oldest request first |
| `EmptySteps.OldestIsSafeExactly` | paceserve/core/scheduler/vllm_scheduler.py:130-152 | the decode phase has a batch if and only if the oldest sequence does not hold the whole pool |
| `EmptySteps.EmptyStepStrands` | paceserve/engine/base_llm_engine.py:422-429 | when it does, and no over-long prompt heads the waiting order, the empty step drops the preemptions, whoever else is waiting: everyone is waiting again, unreset, without blocks |
| `EmptySteps.OverlongComesFirst` | paceserve/core/scheduler/vllm_scheduler.py:66-104 | when an over-long prompt heads the order the step only ignores, and the running list and its tables stay; if that prompt is itself stranded the step raises |
| `EmptySteps.IdlesExactly` | paceserve/core/scheduler/vllm_scheduler.py:63-166 | a step schedules and ignores nothing if and only if the head of the order, if any, is within the limit and either nobody is running and the head needs more than the pool or the batch can give, or the oldest running sequence holds the whole pool |
| `EmptySteps.ReachableIdlesExactly` | paceserve/core/scheduler/vllm_scheduler.py:63-166 | where no sequence can need the whole pool: if and only if nobody is running, and nobody is waiting or the head is within the limit and too big |
| `EmptySteps.RaisesExactly` | paceserve/core/scheduler/base_scheduler.py:95-112 | a step raises if and only if it drops a waiting sequence that is still paused, or gets to one that is over-long |
| `Stranding.PoolFillerIsStranded` | paceserve/core/scheduler/vllm_scheduler.py:66-152 | the run that strands one: a prompt filling the pool of an idle engine without a watermark is prefilled in one step and stranded in the next |
| `Stranding.PoolFillerRaises` | paceserve/core/scheduler/base_scheduler.py:177-186 | if it may grow past the limit, and its tokens go on, it is served and stranded by turns until it is over-long, and then the engine raises; the pool is one the engine starts with |
| `Stranding.RunEndsExactly` | paceserve/core/datatypes/sequence_state.py:447-468 | a run ends in an exception if and only if one of its steps drops a stranded sequence or gets to an over-long one |
| `Stranding.ProperRunGoesOn` | paceserve/engine/base_llm_engine.py:403-443 | no run does in which no sequence can come to need the whole pool |
| `Freezing.FrozenForever` | paceserve/core/scheduler/vllm_scheduler.py:63-95 | a request within the limit that needs more than the empty pool above the watermark, or more tokens than a batch has, stays in front for good once nobody is running: no later step schedules or ignores anything, or raises, whatever arrives later |
| `Freezing.FreezesExactly` | paceserve/core/scheduler/vllm_scheduler.py:63-95 | with nobody running the vLLM engine never does anything again, over every such run, if and only if the request in front is of that kind |
| `Freezing.RunStallsExactly` | paceserve/core/scheduler/vllm_scheduler.py:63-166 | a run of the vLLM or high-priority engine has a step that leaves somebody waiting and does nothing if and only if such a request gets to the front with nobody running |
| `Freezing.UnservableArrivalFreezes` | paceserve/core/block_space_manager/base_block_space_manager.py:81-87 | the run that gets there: such a request is sent to an idle engine |
| `Freezing.FreezingRequestIsProper` | paceserve/engine/base_llm_engine.py:247-255 | and one exists under a configuration the engine starts with |
| `PrefillFirstEngine.Engine.constructor` | paceserve/core/scheduler/vllm_scheduler.py:28-42 | an idle engine |
| `PrefillFirstEngine.Engine.ReorderByDeadline` | paceserve/core/scheduler/high_priority_scheduler.py:63-79 | the loop computes the deadline order |
| `PrefillFirstEngine.Engine.SortWaiting` | paceserve/core/scheduler/vllm_scheduler.py:63-64 | waiting is sorted by arrival, by deadline, or left alone, as configured |
| `PrefillFirstEngine.Engine.AdmitFront` | paceserve/core/scheduler/high_priority_scheduler.py:82-112 | one turn of the admission loop, with both forms of the sequence limit |
| `PrefillFirstEngine.Engine.AdmitWaiting` | paceserve/core/scheduler/vllm_scheduler.py:66-95 | the admission loop computes the admission function; no allocation fails |
| `PrefillFirstEngine.Engine.Schedule` | paceserve/core/scheduler/vllm_scheduler.py:47-166 | the schedule call computes the schedule function, queues, tables and outputs alike |
| `PrefillFirstEngine.Engine.Prepare` | paceserve/core/scheduler/base_scheduler.py:120-141 | its batch meets the sequence manager's assertions and every token of it has a slot of its own |
| `PrefillFirstEngine.Engine.Step` | paceserve/engine/base_llm_engine.py:403-443 | one engine step computes the step function and keeps the invariant |
| `Worker.WorkerStaysInSync` | paceserve/core/sequence_manager/worker_sequence_manager.py:17-60 | a worker whose pool equals the scheduler's passes its own assertion on every scheduled sequence and ends the step with the scheduler's pool |
| `Worker.AlwaysInSync` | paceserve/core/sequence_manager/worker_sequence_manager.py:18-20 | over every run the two pools stay equal |
| `LowPriority.StepKeepsLpInv` | paceserve/core/scheduler/low_priority_scheduler.py:103-267 | every step keeps the invariant: no partial prefill is left and running fits both budgets |
| `LowPriority.BatchWithinTokens` | paceserve/core/scheduler/low_priority_scheduler.py:184-249 | decode plus prefill tokens of a batch never exceed max_num_batched_tokens, nor running max_num_seqs |
| `LowPriority.OffersAreNonEmpty` | paceserve/core/scheduler/low_priority_scheduler.py:189-215 | thanks to the early return the solver never sees a sequence with nothing left to prefill |
| `LowPriority.AdmittedWithinBudget` | paceserve/core/scheduler/low_priority_scheduler.py:208-249 | the placed prompts keep to the batch size and tokens given to the solver |
| `LowPriority.PromotedNeverRan` | paceserve/core/scheduler/low_priority_scheduler.py:75-91 | an offloaded request is waiting, fresh, never scheduled, without blocks, and gone from the queues |
| `LowPriority.EveryRunIsInBudget` | paceserve/core/scheduler/low_priority_scheduler.py:103-267 | over every run from the idle engine: running within both limits, no prompt half processed, no block lost; the next batch within its tokens, and whoever it promotes never scheduled |
| `LowPriorityChoices.PlanInClosedForm` | paceserve/core/scheduler/low_priority_scheduler.py:184-249 | the decodes, and behind them, where there is something to prefill and room for it and nobody was preempted, those picks that fit above the watermark one behind the other; picks over the limit are ignored and everyone else waits in order |
| `LowPriorityChoices.MoreUrgentIsLeftOnlyForRoom` | paceserve/ai_utils/solver.py:106-128 | if a step takes one request and leaves a more urgent one, that one would have overflowed the tokens of the batch behind the decodes and prompts at least as urgent, or did not fit above the watermark |
| `LowPriorityChoices.PicksKeepBudgets` | paceserve/ai_utils/solver.py:110-128 | each pick is made while the prompts picked before it leave some of the compute, the free blocks, and the tokens and places of the batch |
| `LowPriorityChoices.TakenLeavesWatermark` | paceserve/core/scheduler/low_priority_scheduler.py:237-242 | whatever is placed leaves the watermark free |
| `LowPriorityChoices.IdleTakesLoneExactly` | paceserve/core/scheduler/low_priority_scheduler.py:184-249 | an idle engine takes its only request if and only if that is within the limit and the tokens of a batch, fits above the watermark, and there is compute to spend |
| `LowPriorityChoices.HandsOverLate` | paceserve/core/scheduler/low_priority_scheduler.py:75-91 | behind the schedule call exactly the late ones that never ran are handed over, the last of the list first, and the others wait in reverse |
| `LowPriorityChoices.HandedOverExactly` | paceserve/core/scheduler/low_priority_scheduler.py:75-101 | a request is handed over if and only if it is waiting, late and never scheduled, and neither dropped nor in this step taken or ignored |
| `OversizedPrompts.OversizedWaits` | paceserve/ai_utils/solver.py:118-119 | over every run a prompt longer than a batch waits for good, neither scheduled nor ignored, unless it is dropped or promoted; one that ran before is not promoted either |
| `LowPriorityEngine.Engine.constructor` | paceserve/core/scheduler/low_priority_scheduler.py:30-70 | an idle engine with no partial prefills |
| `LowPriorityEngine.Engine.PlaceFront` | paceserve/core/scheduler/low_priority_scheduler.py:232-248 | one solver item is placed, ignored, or kept waiting |
| `LowPriorityEngine.Engine.PlacePicked` | paceserve/core/scheduler/low_priority_scheduler.py:230-249 | the loop over the items computes the placing function |
| `LowPriorityEngine.Engine.SeqOffloading` | paceserve/core/scheduler/low_priority_scheduler.py:75-91 | popping from the end, exactly the late, never scheduled requests are handed over and the rest comes back reversed |
| `LowPriorityEngine.Engine.PrefillsNothing` | paceserve/core/scheduler/low_priority_scheduler.py:190-192 | the early return is taken exactly under its five conditions |
| `LowPriorityEngine.Engine.Pick` | paceserve/core/scheduler/low_priority_scheduler.py:208-215 | the solver's fractions mark exactly the picked prompts |
| `LowPriorityEngine.Engine.AddPrefills` | paceserve/core/scheduler/low_priority_scheduler.py:208-249 | solver and placing together |
| `LowPriorityEngine.Engine.Decodes` | paceserve/core/scheduler/low_priority_scheduler.py:116-182 | the decode loop, with no partial prefill turning up |
| `LowPriorityEngine.Engine.Schedule` | paceserve/core/scheduler/low_priority_scheduler.py:103-267 | the schedule call computes the schedule function |
| `LowPriorityEngine.Engine.HandOver` | paceserve/engine/low_priority_llm_engine.py:19-29 | offloaded sequences join the queue for promotion in order |
| `LowPriorityEngine.Engine.Prepare` | paceserve/core/scheduler/low_priority_scheduler.py:93-101 | schedule and offload; the batch meets every assertion and has its own slots |
| `LowPriorityEngine.Engine.GetHpRequest` | paceserve/disutil/lp_instance.py:35-45 | a poll returns the whole queue in order and empties it |
| `LowPriorityEngine.Engine.Step` | paceserve/engine/base_llm_engine.py:403-443 | one engine step, offloading included, computes the step function and keeps the invariant |
| `Sarathi.BatchWithinChunk` | paceserve/core/scheduler/sarathi_scheduler.py:97-100 | a batch never has more tokens than the chunk size |
| `Sarathi.StepKeepsSarathiInv` | paceserve/core/scheduler/sarathi_scheduler.py:104-260 | whatever max_num_seqs and the chunk size, a step that does not raise leaves at most one prompt half processed, even when a preempted partial is re-admitted in the same step, and no more running than the chunk has tokens |
| `Sarathi.PartialAdvances` | paceserve/core/scheduler/sarathi_scheduler.py:175-198 | a half-processed prompt in running that is not preempted gets at least one token |
| `Sarathi.PartialAdvancesExactly` | paceserve/core/scheduler/sarathi_scheduler.py:182-193 | outside the reachable states too: it does so if and only if the decodes leave a token of the chunk, and is handed a negative chunk if and only if they overdraw it |
| `Sarathi.StarvedPartial` | paceserve/core/scheduler/sarathi_scheduler.py:182-193 | a state with more running than the chunk has tokens, in which the chunk handed over is zero, or negative |
| `Sarathi.ChunksTilePrompts` | paceserve/core/scheduler/sarathi_scheduler.py:80-102 | over every run, which a raising step ends, the chunks of a prompt follow each other without gap or overlap |
| `SarathiChunks.BatchInClosedForm` | paceserve/core/scheduler/sarathi_scheduler.py:104-260 | a batch is the decodes, the prompt left half processed, and the front of the waiting list; each prompt gets what is left of it, or of the chunk behind those before it, whichever is less |
| `SarathiChunks.ReservesMost` | paceserve/core/scheduler/sarathi_scheduler.py:118-167 | its decode loop keeps the longest prefix there are blocks for, half-processed prompts among the list, and preempts nobody exactly when everyone who asks finds a block |
| `SarathiFailure.FailsExactly` | paceserve/core/scheduler/sarathi_scheduler.py:207-243 | a step raises if and only if some over-long sequence stands in the waiting list, or among this step's victims behind it, and everyone before it passes the tests on watermark, width and chunk, as sums over the prefix |
| `SarathiFailure.LoopFailsExactly` | paceserve/core/scheduler/sarathi_scheduler.py:207-243 | the same for the waiting loop alone, from any state it may start in |
| `SarathiFailure.NobodyOverlongSteps` | paceserve/core/scheduler/sarathi_scheduler.py:207-243 | with nobody over the limit, waiting or running, a step does not raise |
| `SarathiFailure.GrownVictimFails` | paceserve/core/scheduler/sarathi_scheduler.py:118-160 | a running sequence that has grown past the limit brings the step down in which it is preempted first, with nobody waiting |
| `SarathiFailure.OverlongArrivalFails` | paceserve/core/scheduler/base_scheduler.py:177-186 | any over-long request sent to an idle engine ends the run in its first step |
| `SarathiFailure.RunEndsExactly` | paceserve/core/scheduler/sarathi_scheduler.py:207-243 | a run ends in an exception if and only if one of its steps gets to an over-long sequence |
| `SarathiEngine.Engine.constructor` | paceserve/core/scheduler/sarathi_scheduler.py:29-58 | an idle engine with a static chunk size |
| `SarathiEngine.Engine.GetSeqNextNumPrefillTokens` | paceserve/core/scheduler/sarathi_scheduler.py:80-102 | the rest of the prompt or of the chunk, whichever is less |
| `SarathiEngine.Engine.ContinuePartials` | paceserve/core/scheduler/sarathi_scheduler.py:175-198 | the loop over half-processed prompts |
| `SarathiEngine.Engine.AdmitFront` | paceserve/core/scheduler/sarathi_scheduler.py:207-243 | one turn of the admission loop |
| `SarathiEngine.Engine.AdmitWaiting` | paceserve/core/scheduler/sarathi_scheduler.py:207-243 | the admission loop computes the admission function, and raises if and only if it gets to an over-long sequence, told from the queue it starts with |
| `SarathiEngine.Engine.Schedule` | paceserve/core/scheduler/sarathi_scheduler.py:104-260 | the schedule call computes the schedule function |
| `SarathiEngine.Engine.Prepare` | paceserve/core/scheduler/sarathi_scheduler.py:246-260 | its batch meets every assertion and has its own slots |
| `SarathiEngine.Engine.Step` | paceserve/engine/base_llm_engine.py:403-443 | one engine step computes the step function and keeps the invariant, or raises, exactly under the condition on the state before it |
| `DecodeInstance.EveryInterleavingKeepsOwnership` | paceserve/core/scheduler/decode_scheduler.py:46-174 | over every interleaving of steps and threads each sequence is in exactly one place and owns a table exactly on its way to, and in, the running list |
| `DecodeInstance.NoAllocationWhileFlagged` | paceserve/core/scheduler/decode_scheduler.py:54-58 | while the flag stands the queues on the way in do not move and nobody starts to own blocks |
| `DecodeInstance.KeptPrefix` | paceserve/core/scheduler/decode_scheduler.py:88-131 | owners outside the running list do not influence the decode loop |
| `DecodeInstance.ReservedIsOk` | paceserve/core/scheduler/decode_scheduler.py:82-131 | the decode loop splits the sorted running list exactly, under the cap on decodes |
| `DecodeInstance.KeepsProgress` | paceserve/core/datatypes/sequence.py:214-225 | preemption here keeps the text and lowers the allowance by as much as the prompt grows |
| `DecodeInstance.StepKeeps` | paceserve/engine/decode_llm_engine.py:44-87 | a step keeps the invariant and every sequence |
| `DecodeLiveness.StuckForever` | paceserve/engine/decode_llm_engine.py:63-78 | once the flag stands and nothing owns blocks, nothing is ever decoded, brought back or taken in again |
| `DecodeLiveness.SticksExactly` | paceserve/engine/decode_llm_engine.py:63-78 | a step gets an instance stuck if and only if no table is on its way and the oldest of its decoding sequences holds the whole pool |
| `DecodeLiveness.RunSticksExactly` | paceserve/engine/decode_llm_engine.py:63-78 | an interleaving ends stuck if and only if one of its steps met that condition |
| `DecodeLiveness.SmallSequencesNeverStick` | paceserve/engine/decode_llm_engine.py:77-78 | so none does when every sequence is too small to fill the pool |
| `DecodeLiveness.PoolFillingSequenceSticks` | paceserve/engine/decode_llm_engine.py:63-78 | and a run does in which a sequence filling the pool is sent to an idle instance without a watermark |
| `DecodeLiveness.BigHeadStarves` | paceserve/core/scheduler/decode_scheduler.py:142-150 | a sequence at the head of the queue that with the watermark needs more than the pool stays there over every interleaving, untouched, and nobody behind it is taken in |
| `DecodeLiveness.IdleInstanceTakesHeadExactly` | paceserve/core/scheduler/decode_scheduler.py:142-150 | an instance that has given all tables back takes the head of its queue if and only if it is not too big |
| `DecodeAdmission.ScheduledInClosedForm` | paceserve/core/scheduler/decode_scheduler.py:65-150 | all queues behind a schedule call, told from those before it: who is brought back, how many are taken in, in order, and who is preempted |
| `DecodeAdmission.BringsBackExactly` | paceserve/core/scheduler/decode_scheduler.py:133-140 | the first preempted sequence is brought back if and only if the flag is down, the decodes preempt nobody, and it fits above the watermark in what they leave |
| `DecodeAdmission.IdleInstanceBringsBackExactly` | paceserve/core/scheduler/decode_scheduler.py:133-140 | an instance that has given all tables back brings it back if and only if it is not too big |
| `DecodeAdmission.ReservesMost` | paceserve/core/scheduler/decode_scheduler.py:82-131 | the decode loop keeps the most there are blocks for, and slots go to as many of them as the cap allows |
| `DecodeAdmission.ThreadsDeliver` | paceserve/disutil/decode_instance.py:128-192 | once the threads have worked their queues off, every cache on its way is decodable, in order |
| `DecodeAdmission.PreemptedComesBack` | paceserve/disutil/decode_instance.py:173-192 | so a preempted sequence that is not too big does become decodable again |
| `DecodeEngine.Engine.constructor` | paceserve/core/scheduler/decode_scheduler.py:30-58 | an idle instance |
| `DecodeEngine.Engine.AddKvcMetadata` | paceserve/disutil/decode_instance.py:119-122 | an announced sequence joins the metadata queue |
| `DecodeEngine.Engine.StartTransfer` | paceserve/disutil/decode_instance.py:160-165 | a transfer thread takes the oldest request |
| `DecodeEngine.Engine.FinishTransfer` | paceserve/disutil/decode_instance.py:128-171 | an inserted cache makes its sequence decodable |
| `DecodeEngine.Engine.StartInsert` | paceserve/disutil/decode_instance.py:176-181 | an insertion thread takes the oldest request |
| `DecodeEngine.Engine.FinishInsert` | paceserve/disutil/decode_instance.py:182-192 | a re-inserted cache makes its sequence decodable |
| `DecodeEngine.Engine.DrainPendingDecode` | paceserve/core/scheduler/decode_scheduler.py:78-80 | decodable sequences join the running list in order |
| `DecodeEngine.Engine.ReserveDecodes` | paceserve/core/scheduler/decode_scheduler.py:82-131 | the decode loop; victims go to the list of their own and raise the flag |
| `DecodeEngine.Engine.AllocateForKvCache` | paceserve/core/scheduler/decode_scheduler.py:168-174 | allocates exactly when the watermark allows |
| `DecodeEngine.Engine.BringBackOne` | paceserve/core/scheduler/decode_scheduler.py:133-140 | the first preempted sequence moves to the insertion queue exactly when there is one, the flag is down and it fits above the watermark |
| `DecodeEngine.Engine.TakeInNew` | paceserve/core/scheduler/decode_scheduler.py:142-150 | announced sequences in order until one does not fit, and not under the flag |
| `DecodeEngine.Engine.Schedule` | paceserve/core/scheduler/decode_scheduler.py:65-166 | the schedule call computes the scheduling function over all the queues |
| `DecodeEngine.Engine.Prepare` | paceserve/core/scheduler/decode_scheduler.py:65-166 | its batch meets the sequence manager's assertions and every token of it has a slot of its own |
| `DecodeEngine.Engine.ExecuteBatch` | paceserve/engine/decode_llm_engine.py:71-87 | the batch runs, the flag comes down, finished sequences leave |
| `DecodeEngine.Engine.Step` | paceserve/engine/decode_llm_engine.py:44-87 | one engine step computes the step function |
| `Offloading.StepConserves` | paceserve/core/scheduler/low_priority_scheduler.py:75-101 | queues before a step are queues after it plus promoted, aborted, ignored and finished |
| `Offloading.PromotedHoldsNothing` | paceserve/core/scheduler/low_priority_scheduler.py:84-86 | a promoted request holds no block at any time of its step and was never executed |
| `Offloading.BatchHolds` | paceserve/core/scheduler/low_priority_scheduler.py:176-180 | whoever is scheduled is among the holders of blocks |
| `Offloading.WaitingHoldersAreMarked` | paceserve/core/datatypes/sequence_state.py:398-404 | whoever waits after having held blocks is marked as scheduled |
| `Cluster.PromotionProtocol` | paceserve/core/controller/pace_controller.py:42-87 | over every interleaving each request is in exactly one place, none is promoted twice, and a promoted one never held a block on a low-priority instance and never returns there |
| `Cluster.LpTickKeeps` | paceserve/engine/low_priority_llm_engine.py:19-29 | a low-priority step moves promoted requests into the pipeline and keeps the ledger |
| `Cluster.HpInstallKeeps` | paceserve/disutil/hp_instance.py:63-84 | installing a pending sequence keeps the invariant of the engine it joins |
| `Cluster.RouteKeeps` | paceserve/core/controller/pace_controller.py:65-87 | routing keeps every request, whatever the ticket says |
| `Cluster.ReplyKeeps` | paceserve/core/controller/pace_controller.py:50-63 | an answer to a poll moves its sequences to the queue, in any order of answers |
| `Instances.Controller.RouteOne` | paceserve/core/controller/pace_controller.py:71-87 | one turn: a promoted sequence goes to the high-priority instance whose turn it is; otherwise a request goes there with a ticket, and to the low-priority instance whose turn it is without |
| `Instances.Controller.ScheduleAll` | paceserve/core/controller/pace_controller.py:70-87 | the loop empties both queues, one turn per entry |
| `Instances.Controller.TakeReply` | paceserve/core/controller/pace_controller.py:57-59 | the sequences of an answer join the queue in order |
| `Instances.RoutingKeeps` | paceserve/core/controller/pace_controller.py:70-87 | a whole routing loop keeps the invariant and every request |
| `RoundRobin.RoutingInClosedForm` | paceserve/core/controller/pace_controller.py:70-87 | a whole loop deals the promoted sequences, then the requests with a ticket, round robin over the high-priority instances, those without over the low-priority ones, and changes nothing else |
| `ClusterDelivery.SubmittedIsSent` | paceserve/core/controller/pace_controller.py:78-87 | a request submitted to an idle controller is on its way to the instance whose turn it is, by its ticket |
| `ClusterDelivery.SentToLowWaits` | paceserve/disutil/instance.py:113-114 | delivered and turned into a sequence, it waits at the end of the engine's list |
| `ClusterDelivery.SentToHighWaits` | paceserve/disutil/instance.py:113-114 | the same at a high-priority instance |
| `ClusterDelivery.PolledIsQueued` | paceserve/core/controller/pace_controller.py:42-63 | a poll and its answer bring all an instance has to hand over to the controller, in order |
| `ClusterDelivery.PromotedArrives` | paceserve/disutil/hp_instance.py:53-84 | polled, answered, routed, received and installed, a promoted sequence waits in a high-priority engine with the state it was handed over with |
| `Instances.HpInstance.AddSequence` | paceserve/disutil/hp_instance.py:53-61 | a received sequence is only queued |
| `Instances.HpInstance.ProcessPendingSequences` | paceserve/disutil/hp_instance.py:63-84 | all pending sequences join the engine in order |
| `SequenceState.State.constructor` | paceserve/core/datatypes/sequence_state.py:12-43 | a new request |
| `SequenceState.State.HandleTransitionsFromWaiting` | paceserve/core/datatypes/sequence_state.py:395-429 | first start, restart, ignore and abort; the assertions about restarts hold |
| `SequenceState.State.HandleTransitionsFromRunning` | paceserve/core/datatypes/sequence_state.py:431-445 | execution time is booked first, even for a move that is then rejected |
| `SequenceState.State.HandleTransitionsFromPaused` | paceserve/core/datatypes/sequence_state.py:447-468 | paused time is booked first, even for a move that is then rejected |
| `SequenceState.State.SetStatusTo` | paceserve/core/datatypes/sequence_state.py:470-484 | raises exactly on the illegal moves, which keep the status |
| `SequenceState.TimeAccounting` | paceserve/core/datatypes/sequence_state.py:395-484 | for stopped and length-capped requests execution plus preempted time is completion minus scheduling time if and only if rejected attempts booked nothing |
| `SequenceState.TimeAccountingExactly` | paceserve/core/datatypes/sequence_state.py:431-484 | under an advancing clock that is the case if and only if no status change was rejected while running or paused |
| `SequenceState.RejectedStopIsBookedTwice` | paceserve/core/datatypes/sequence_state.py:431-445 | an attempt to stop a running sequence, rejected, leaves four units booked for three |
| `SequenceState.LegalRunsDoNotDrift` | paceserve/core/datatypes/sequence_state.py:470-484 | legal transition sequences book nothing beside it |
| `SequenceState.PartsAccount` | paceserve/core/datatypes/sequence_state.py:395-468 | execution, paused and preempted time each on its own: the time running, paused, and paused or waiting to run again; restarts and pauses are counted |
| `SequenceState.StampsTellTheLife` | paceserve/core/datatypes/sequence_state.py:395-484 | aborted, ignored and completed are as the status says, whatever was attempted; a request that is not dropped is scheduled when first started and completed at its last change |
| `SequenceState.FinishedIsAbsorbing` | paceserve/core/datatypes/sequence_state.py:479-482 | nothing changes after a finished status |
| `SequenceState.DroppedAccounting` | paceserve/core/datatypes/sequence_state.py:411-425 | for ignored and aborted requests the accounting holds if and only if no attempt to start them came before the one that dropped them |
| `SequenceState.DroppedRestartIsOverbooked` | paceserve/core/datatypes/sequence_state.py:411-425 | a request aborted after a restart has two units booked for none |
| `SequenceState.EndToEnd` | paceserve/core/datatypes/sequence_state.py:176-338 | end-to-end time is scheduling delay plus execution and preemption exactly when both properties take the same branch or agree by chance, and for a sequence decoded elsewhere when the time in transit matches the two clocks; each raises exactly when a time stamp it computes with is missing |
| `TopologicalSort.CountDependants` | paceserve/config/flat_dataclass.py:24-27 | in-degrees count the dependants of a class |
| `TopologicalSort.Roots` | paceserve/config/flat_dataclass.py:29-31 | the queue starts with the keys nobody depends on |
| `TopologicalSort.PlaceNext` | paceserve/config/flat_dataclass.py:34-40 | one turn of the loop keeps the queue to the classes whose dependants are all placed |
| `TopologicalSort.ReleaseDependencies` | paceserve/config/flat_dataclass.py:37-40 | in-degrees drop by one and those reaching zero are queued |
| `TopologicalSort.Sort` | paceserve/config/flat_dataclass.py:23-42 | the list repeats nothing and puts every class behind all its dependants |
| `TopologicalSort.SortedIffAcyclic` | paceserve/config/flat_dataclass.py:23-42 | the list is complete if and only if the dependencies have no cycle |
| `TopologicalSort.SortAcyclic` | paceserve/config/flat_dataclass.py:23-42 | for acyclic dependencies every class comes exactly once, before its dependencies, and nobody depends on the first |
| `TopologicalSort.Reconstruct` | paceserve/config/flat_dataclass.py:49-72 | going backwards, every class finds its dependencies built |

## Left out

- Model execution, tensors, tokenizers, kernels, weight loading, and the transfer of caches: a sampled token is an arbitrary value, a transfer an event.
- Metrics, logging, plots, and the `Batch` and `SchedulerMetadata` objects built for them, such as the low-priority scheduler's token count, which is assigned and never used to decide.
- The regression behind estimated times: estimates are arbitrary reals, and times are exact reals, not floats.
- Dynamic chunk sizes of Sarathi: their schedule is numpy rounding.
- Value functions other than earliest deadline first, `GreedySolver`, and the schedulers not listed above.
- `num_running_batches` and `_iteration_id`: with pipeline size one the first is zero at every schedule call and the second is only for logs.
- Aliasing of sequence objects: lists hold ids, and one map from ids to values stands for the objects; the class `PagedSequence.Sequence` has the same state as the values in that map.
- The loop over picked partial prefills (paceserve/core/scheduler/low_priority_scheduler.py:218-228): the list is proved empty, so the loop never has a turn.
- Worker.WorkerStaysInSync: scheduler and worker are proved to agree on how many blocks each sequence has, not on which, since each gives blocks back in the order its own set yields them.
- Worker.AlwaysInSync: the same agreement on counts over runs. Sarathi's, the low-priority and the decode workers are not modelled.
- The removal of finished sequences from the sequence manager's map, and the copies of new sequences sent to workers.
- Warm-up, start and stop of instances and the controller's collection of finished requests.
- `decode_instance`'s check of its insertion results, which sums status objects: insertions are taken as succeeding.
- The high-priority ticket: any answer is allowed, which covers the one the code computes.
- The `None` sequence `_add_sequence` tolerates: the controller never sends one.
- Cluster.PromotionProtocol: assumes that every request can be served by both kinds of instance, and that messages arrive exactly once.
- PrefillFirst.StepKeepsInv: does not model the clock moving between two readings within a step; `PrefillFirst.Step` marks dropped sequences without looking at their status; `EmptySteps.Raises` says when the source raises there instead, which no run of `PrefillFirst.ReachableInv` does.
