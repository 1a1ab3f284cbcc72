# Recipe recovery, reward and batch logic in Dafny

This project models the state-changing cores of a collection of reinforcement-learning recipes for language models and proves what they promise. Six cores are modelled, each in its own modules:

- **Rollout fault recovery** (`Decoding`, `TokensDict`, `TokenProtocol`, `ResumeExactness`, `LateReads`, `StepSeparation`, `RolloutRetry`, `TokenCheckpoint`, `DurableRuns`). Workers announce requests on a shared queue, the engine enqueues tokens before it hands them out, one consumer folds the messages into a dictionary, and a rebuild restarts every request from what was saved. `TokenProtocol` is a step relation with a log of enqueued tokens and a next-token oracle: a fault is noticed, the queue is found empty, workers and engines are killed, and the dictionary is read, each at its own time. `TokenCheckpoint` adds the files on disk and process crashes, and `DurableRuns` joins the two.
- **Multi-turn rewards** (`MaskSpans`, `AgentLoop`, `TurnRewards`, `Trloo`, `PlainRloo`, `RewardPipeline`). An agent loop records a mask and one reward per turn, the trainer puts the rewards on mask spans, and the turn-level leave-one-out estimator reads them back. Tensors are `seq<seq<real>>`.
- **Predictor reordering** (`SnakeSort`, `ReverseIndex`, `PredictorOrder`). Serpentine packing with its load bounds, then the chain of reorder, filter, truncate, balance and restore that must keep labels with their prompts.
- **Batch filtering and validation** (`SampleSelection`, `BatchFilter`, `BatchStages`, `BatchSelection`, `TwoGate`, `FilterPipeline`, `PassAtK`, `ResumableValidation`, `TurnDivision`, `RepeatedKeys`). The staged filter with proportional sample selection, cumulative rejection statistics, the unbiased pass@k product, and validation that resumes after crashes.
- **Expert pruning** (`ExpertPruning`). Renaming and slicing that must keep router rows and expert weights in step.
- **Dynamic sampling** (`Groups`, `DynamicSampling`, `RankBalance`, `TransferQueue`). Generate, filter and accumulate, in an incremental and in a list-and-concatenate implementation.

`Sequences`, `Reals`, `Blocks` and `Wrappers` hold what several modules need. Code that changes state is a class or a method with a loop, proved equal to a function of its input or its old state; the main results are lemmas about those functions over all inputs and all runs.

Rewards, losses and workloads are exact reals or naturals. Randomness (`randperm`, `multinomial`), the load partition, the tokenizer, the reward functions and the engine are parameters or methods whose contracts promise only what any implementation would.

Some promises of the code are false for part of its inputs. Each has a lemma that says exactly when it holds, and where a particular input shows more, a lemma with that input:

- A rebuild finds the queue empty before it kills workers and engines, and reads the dictionary afterwards, so a retry is planned from everything enqueued exactly when no token is queued at the read (`RetryPlansEverythingIff`). A late read does harm exactly when tokens are generated again where they do not belong (`LateReadIsHarmlessIff`); then a later retry can give a wrong answer (`LateReadIsReachable`), and as long as no read has done harm every answer is the uninterrupted one (`AnswersAreUninterrupted`, `AnswerIsExactIff`).
- `clear` waits for the step's requests only if the dictionary is not empty; otherwise tokens of the old step can land in the new one (`ClearSeparatesStepsIff`, `EarlyClearIsReachable`), as they can after a late read (`InheritsIff`, `LateReadIsInherited`).
- The tag of the token dictionary changes without the lock, so a round of the saving thread may copy the tokens of one step to the file of the next; the files are right exactly as long as the tag does not change between count and copy (`LateCopyIff`, `LateCopyIsReachable`), and the results about files are stated for runs in which it does not.
- Spans, rewards and turns are equally many only if no generation and no feedback is empty (`SpansMatchRewards`); prompt and response are split correctly only if the mask is not empty (`ResponseFollowsPrompt`).
- That two ranks' predicted loads differ by at most the highest score, for any prompt count, holds for all batches with scores from `low` on exactly when `low` is not negative (`HighestBoundsLoadsIff`); the scorer is linear, so negative scores are ordinary, and for them the bound is the highest minus twice the lowest score (`LoadsAreBounded`, attained by `BoundsAreReached`).
- The turn-level estimator falls back to plain leave-one-out exactly for rows for which the rewards off the spans and the empty rows of the prompt make up for each other (`SingleTurnIsPlainRlooIff`). An empty row alone breaks it (`EmptyRowChangesTheMean`), and so does a reward off the spans alone (`RewardOffSpanIsLost`).
- The snake sort reads every prompt's own score exactly when every rank that has a prompt's first row starts at one (`AllScoresAreSeenIff`).
- Preferring complete groups yields the most full picks exactly when no incomplete group has to be drawn, or the incomplete ones are all oversized or all undersized (`EveryChoiceIsBestIff`).
- Without the group filter the two dynamic sampling loops differ on generations larger than a training batch (`AgreesIff`), and only the incremental one skips epochs after a checkpoint, or on a fresh start with one batch per epoch (`SameEpochsIff`, `FreshStartDiffers`).
- A clear leaves older files of processes that have died since (`ClearLeaves`).
- A sample whose smallest log-probability difference is exactly the threshold is rejected though no token of it is counted as unstable (`RejectedWithoutUnstableTokens`).
- A resumed validation has the rows of an uninterrupted one, but not always its accumulators: the score turns up as a reward field, which the length check notices (`GuardAfterCrashesIff`), and the turn counts of reloaded rows are those of a reward field that the single-call reward manager does not write, so their rewards are divided by 1 (`ResumedEqualsUninterruptedIff`, `ResumedRewardsIff`, `TurnCountsAreLost`). The comment at `drkernel/trainer/drkernel_async_rollouter.py:699-702` promises that a resumed run aggregates identically.
- Prompts that share a resume key are dropped unless the first chunk with the key has them all (`AllPromptsEvaluatedIff`).
- Groups whose responses all exceed the length limit are cleared only under `remove_clip` (`OverLongGroupsArePoorIff`), where the class comment at `drkernel/filters/unified_filter.py:127` says always.
- The number of experts that the pruning tool writes into the configuration is wrong for the first three layers unless nothing is pruned (`ConfiguredCountIsRightIff`).

Where code and documentation disagree the model follows the code. The code prefers complete groups, but complete means exactly the target size, so a group with more survivors than that counts as incomplete (`IsComplete`). The pruning tool builds old-to-new maps that the renaming never reads (`small_for_large/expert_pruned.py:78-88`).

## Model

| member | source | states |
|---|---|---|
| `Decoding.ResumeContinues` | fault_recover/agent_loop/fault_recover_single_turn_agent_loop.py:56-86 | generating on from prompt plus saved tokens and prepending the saved tokens is the generation from the prompt alone |
| `Decoding.CompleteIsExact` | fault_recover/agent_loop/fault_recover_single_turn_agent_loop.py:56-79 | an entry flagged finished holds, cut to the response length, the uninterrupted generation |
| `Decoding.ResumeIsExact` | fault_recover/agent_loop/fault_recover_single_turn_agent_loop.py:80-110 | a resumed request whose budget covers the rest of the response length answers with the uninterrupted generation cut to it |
| `Decoding.ChunkStaysOnTrack` | fault_recover/async_llm.py:26-40 | tokens produced after a saved prefix leave the saved list a prefix of the uninterrupted generation |
| `TokensDict.FoldAppends` | fault_recover/fault_manager.py:56-69 | one update appends to every id exactly the tokens of the requests that belong to it, in message order, and leaves the other ids alone |
| `TokensDict.Collector.UpdateDatas` | fault_recover/fault_manager.py:56-69 | the in-place loop over a request dictionary equals the fold of its messages |
| `TokensDict.Collector.Consume` | fault_recover/fault_manager.py:336-346 | the consumer loop applies the queue in order: mappings to the request map, token messages to the dictionary |
| `TokenProtocol.StepKeepsInv` | fault_recover/fault_manager.py:331-388 | every step of the protocol (announce, submit, engine batch, answer, consume, fault, empty queue found, kill, read, next step) keeps the invariant; until the kill everything goes on, and the read does not look at the queue |
| `TokenProtocol.EmitKeepsInv` | fault_recover/async_llm.py:26-56 | an engine batch put on the queue before it is handed out keeps log, queue and dictionary in agreement |
| `TokenProtocol.AnnounceKeepsInv` | fault_recover/agent_loop/fault_recover_agent_loop.py:60-71 | a mapping sent before generation makes every later token message of the request resolvable |
| `TokenProtocol.ConsumeKeepsInv` | fault_recover/fault_manager.py:336-346 | popping and applying one message moves its tokens from the queue to the dictionary |
| `TokenProtocol.ReadKeepsInv` | fault_recover/fault_manager.py:508-540 | a retry planned from the dictionary keeps the books: what was enqueued is what the plan holds, what was queued at the read, and what the attempt sends |
| `TokenProtocol.BeginKeepsInv` | fault_recover/fault_manager.py:452-461 | starting the next training step keeps the invariant whatever messages of the old one are still queued |
| `TokenProtocol.RunKeepsInv` | fault_recover/fault_manager.py:331-388 | the invariant holds after any run of steps |
| `TokenProtocol.TokensAreConserved` | fault_recover/fault_manager.py:331-346 | in every reachable state, however late the consumer was at reads and at the start of the step, saved tokens followed by queued tokens are exactly the enqueued ones, and draining the queue saves them all |
| `TokenProtocol.EnqueuedIs` | fault_recover/fault_manager.py:513-540 | what was enqueued for an id is what its attempt was planned from, then what was still queued at the read, then what the attempt sent: late tokens are generated and enqueued once more |
| `TokenProtocol.RetryPlansEverythingIff` | fault_recover/fault_manager.py:615-617 | a retry is planned from everything enqueued for an id exactly when no token of it is queued at the read, which the empty queue found before the kill does not ensure |
| `ResumeExactness.AnswerIsExactIff` | fault_recover/agent_loop/fault_recover_single_turn_agent_loop.py:56-110 | in every reachable state an answered id got the uninterrupted generation cut to the response length exactly when the entry its attempt was planned from was on track and rightly flagged |
| `ResumeExactness.AnswersAreUninterrupted` | fault_recover/agent_loop/fault_recover_single_turn_agent_loop.py:56-110 | as long as no read of the step did harm to an id, its answer is the uninterrupted one, after any faults, rebuilds and reloads |
| `ResumeExactness.OnTimeAnswersAreUninterrupted` | fault_recover/agent_loop/fault_recover_single_turn_agent_loop.py:56-110 | so it is for every step that starts from a right snapshot, or nothing, and whose reads find nothing of the id on the queue |
| `ResumeExactness.SnapshotsAreResumable` | fault_recover/fault_manager.py:136-140 | the entry of an unharmed id is right at every moment: a new process that reloads the dictionary starts in an initial state with the id unharmed, so the results above hold across restarts |
| `LateReads.LateReadIsHarmlessIff` | fault_recover/fault_manager.py:373-378 | a read does an unharmed id no harm exactly when every way in which the step can go on, with later reads in time, answers the id right: its plan is finished, enough tokens are on their way, or what is generated again is what would have come next |
| `LateReads.LateReadIsReachable` | fault_recover/fault_manager.py:566-568 | a concrete run with a token enqueued between the empty queue and the kill: it is saved in front of itself, and the next retry answers [0, 0] instead of [0, 1] |
| `TokenProtocol.StrayTokensAreIgnored` | fault_recover/fault_manager.py:352-354 | traffic without a global id (validation) never changes the dictionary |
| `StepSeparation.InheritsIff` | fault_recover/fault_manager.py:89-102 | the next step saves tokens of the old one exactly when some are queued under a request that the consumer still knows or has yet to learn from the queue |
| `StepSeparation.ClearSeparatesStepsIff` | fault_recover/fault_manager.py:89-102 | for an id whose reads came in time, the wait in `clear` keeps its tokens out of the next step exactly when the dictionary is not empty at that moment |
| `StepSeparation.EarlyClearIsReachable` | fault_recover/fault_manager.py:93-96 | a concrete run in which the dictionary is still empty when `clear` runs, so tokens of the old step land in the new one |
| `StepSeparation.LateReadIsInherited` | fault_recover/fault_manager.py:615-617 | a concrete run in which they do after a late read although the dictionary is not empty |
| `RolloutRetry.Rollout` | fault_recover/fault_manager.py:349-388 | the retry loop returns, raises or goes on exactly as its rounds say, with at most 1 + max_rebuild_times attempts: one, and one more for every round it passes that gets as far as a rollout |
| `RolloutRetry.StopsAt` | fault_recover/fault_manager.py:363-386 | the first refusal or success decides the outcome |
| `RolloutRetry.RunsOut` | fault_recover/fault_manager.py:363-386 | with every round failing the loop gives up exactly when the bound is used up |
| `TokenCheckpoint.Actor.Clear` | fault_recover/fault_manager.py:89-108 | clearing empties the dictionary and removes only files of steps up to the model checkpoint, and of these exactly the ones this process has written |
| `TokenCheckpoint.Actor.UpdateIter` | fault_recover/fault_manager.py:127-128 | the tag of the dictionary becomes the new step |
| `TokenCheckpoint.Actor.TryLoad` | fault_recover/fault_manager.py:110-125 | the finished file wins over the auto-save file, which counts only with the same tag |
| `TokenCheckpoint.Actor.AutoSave` | fault_recover/fault_manager.py:130-152 | a save tick replaces the auto-save file and adds the step's file when all of a full batch is finished; it does nothing while a finished step is replayed |
| `TokenCheckpoint.WholeRoundIsAfterTick` | fault_recover/fault_manager.py:136-151 | the three parts of a round of the saving thread (write, count, copy), between which the process may die and the unlocked calls may fall, are together the round |
| `TokenCheckpoint.StepKeepsInv` | fault_recover/fault_manager.py:89-152 | every step of the save/clear/load/crash machine keeps the invariant, unless the tag changes between the count and the copy of a round |
| `TokenCheckpoint.StepFilesAreFinal` | fault_recover/fault_manager.py:141-151 | a step's file holds all batch_size entries, all finished, with their final tokens |
| `TokenCheckpoint.AutoSaveMatchesItsTag` | fault_recover/fault_manager.py:138-151 | after any run the tag of the auto-save file and the number of every step file name the step whose rollout produced every single entry in it, tracked entry by entry apart from the tags |
| `TokenCheckpoint.AutoSaveIsLastSnapshot` | fault_recover/fault_manager.py:136-140 | the auto-save file holds nothing or the last snapshot of the rollout of the step it is tagged with |
| `TokenCheckpoint.ClearKeepsUncheckpointed` | fault_recover/fault_manager.py:104-108 | a step file that exists at any moment of a run exists with the same tokens at every later moment, over clears, saves, crashes and reloads, until the model checkpoint reaches its step |
| `TokenCheckpoint.ClearLeaves` | fault_recover/fault_manager.py:104-108 | after a clear in any run an older file is left exactly if it was written by a process that has died since |
| `TokenCheckpoint.StepsReloadWhatTheyHad` | fault_recover/fault_manager.py:110-125 | a restarted step reloads its final tokens or its last snapshot |
| `TokenCheckpoint.RestartReplaysCompletedSteps` | fault_recover/fault_manager.py:452-461 | after a crash every step since the checkpoint that completed is reloaded from its own file |
| `TokenCheckpoint.ReplayKeepsTheSnapshot` | fault_recover/fault_manager.py:136-140 | replaying finished steps does not overwrite the snapshot of the interrupted one: the saving thread writes nothing |
| `TokenCheckpoint.LateCopyIff` | fault_recover/fault_manager.py:127-151 | a copy leaves every file with the tokens of the step it is named after exactly when `update_iter`, which takes no lock, has not come between the count and the copy |
| `TokenCheckpoint.LateCopyIsReachable` | fault_recover/fault_manager.py:102-128 | a concrete run in which it has: the new step loads the old one's tokens as its finished rollout |
| `DurableRuns.ConsumeGrows` | fault_recover/fault_manager.py:336-346 | while reads come in time, a consumed message lets entries grow and leaves finished ones alone |
| `DurableRuns.ProtocolRunsDurably` | fault_recover/fault_manager.py:130-152 | a step of the protocol whose reads come in time, with parts of saving rounds anywhere in between, is a legal run of the save/clear/load machine: what that takes for granted of dictionary and outputs is true of the consumer and the engine |
| `DurableRuns.LoadedStepMirrors` | fault_recover/fault_manager.py:452-461 | every step that has loaded a right dictionary, or none, starts as such a run |
| `DurableRuns.OutputsAreAnswers` | fault_recover/agent_loop/fault_recover_single_turn_agent_loop.py:56-110 | the outputs of such a run, cut to the response length, are the answers, which are uninterrupted |
| `MaskSpans.MaskRuns` | drkernel/trainer/drkernel_async_trainer.py:414-430 | the scan with an open-span flag finds the runs of 1 |
| `MaskSpans.RunsAreRuns` | drkernel/algos.py:76-92 | the spans are all the maximal runs, from left to right |
| `MaskSpans.RunsAreUnique` | drkernel/algos.py:76-92 | there is only one such list, so the trainer's and the estimator's parsers agree |
| `MaskSpans.RunsRebuildMask` | drkernel/trainer/drkernel_async_trainer.py:414-430 | the spans rebuild the mask position by position |
| `MaskSpans.ZerosAddNoRun` | drkernel/agent/kernel_agent_loop.py:480-481 | feedback tokens and padding add no run |
| `MaskSpans.OnesAddOneRun` | drkernel/agent/kernel_agent_loop.py:345-347 | a non-empty generation adds one run unless it touches the last one |
| `AgentLoop.Trajectory.HandlePending` | drkernel/agent/kernel_agent_loop.py:323-326 | the conversation starts with the prompt and nothing else |
| `AgentLoop.Trajectory.HandleGenerating` | drkernel/agent/kernel_agent_loop.py:328-388 | a turn appends its tokens, one mask entry each, decides whether the loop may go on, and takes the penalty without a kernel |
| `AgentLoop.Trajectory.HandleEvaluating` | drkernel/agent/kernel_agent_loop.py:390-486 | an evaluated turn gets exactly one reward; feedback is appended only while there is room |
| `AgentLoop.Trajectory.Run` | drkernel/agent/kernel_agent_loop.py:280-321 | the state loop stops at the first turn that gives an answer or no kernel, is not evaluated, or uses up the response length, the assistant turns or the user turns, and outputs prompt, tokens with their mask turn by turn, rewards and turn count up to it |
| `AgentLoop.OutputIs` | drkernel/agent/kernel_agent_loop.py:280-321 | what the output holds, token by token: the prompt's, every generated and every feedback token at its place up to the cut, with its mask, and one reward per turn |
| `AgentLoop.SpansMatchRewards` | drkernel/agent/kernel_agent_loop.py:344-388 | after truncation and padding, spans, rewards and turns are equally many exactly when no generation and no feedback is empty |
| `AgentLoop.ResponseFollowsPrompt` | drkernel/agent/kernel_agent_loop.py:291-300 | prompt and response are cut where they should be exactly when the mask is not empty: a slice from -0 takes everything |
| `AgentLoop.RoomBeforeLastTurn` | drkernel/agent/kernel_agent_loop.py:354-362 | the last turn always starts inside the response budget |
| `TurnRewards.Redistribute` | drkernel/trainer/drkernel_async_trainer.py:349-411 | rows with rewards get reward t on the last token of span t and zero elsewhere, for as many as there are of both; when any row has rewards, the rows without are zeroed; when none has, all scores stay |
| `TurnRewards.RewriteRow` | drkernel/trainer/drkernel_async_trainer.py:369-401 | the first rewards go to the last tokens of the first spans |
| `TurnRewards.SpanSumIsReward` | drkernel/algos.py:98-101 | the sum over a span is that turn's reward |
| `TurnRewards.RewardsRoundTrip` | drkernel/trainer/drkernel_async_trainer.py:379-401 | redistribution followed by the span sums gives the rewards back; the row total is their sum; nothing lands off the spans |
| `Trloo.DiscountedReturns` | drkernel/algos.py:103-114 | the backward loop computes the returns of a row |
| `Trloo.ReturnsAreDiscountedSums` | drkernel/algos.py:103-114 | every return is the closed-form sum of gamma^k times the reward k turns later |
| `Trloo.GroupTurns` | drkernel/algos.py:116-120 | the groups are the turns with the same prompt and turn index, members in row order |
| `Trloo.SpreadGroups` | drkernel/algos.py:122-137 | writing group by group into the tensors gives every turn's span its advantage and return, and zero elsewhere |
| `Trloo.Compute` | drkernel/algos.py:36-139 | both tensors carry what is due: at every token of turn t of a row the return is the sum over k of gamma^k times the row's rewards on span t+k, the advantage is that minus the mean of the same sums of the prompt's other rows with a turn t, or the sum itself if there are none, and off the spans both are zero |
| `Trloo.TensorsCarryDues` | drkernel/algos.py:103-137 | the values that the tensors hold, in terms of the rewards on the spans alone, for every batch, discount and token |
| `Trloo.SpreadIsConstantOnSpans` | drkernel/algos.py:133-137 | values are constant on a span and zero off the spans |
| `Trloo.AdvantageIsScaledDeviation` | drkernel/algos.py:132-136 | in a group of n >= 2 the advantage is n/(n-1) times return minus group mean |
| `Trloo.GroupAdvantagesCancel` | drkernel/algos.py:132-136 | in a group of n >= 2 the advantages sum to zero |
| `Trloo.AdvantageIsLocal` | drkernel/algos.py:116-136 | an advantage depends on its own (prompt, turn) group only: other prompts and other turns of the same rows have no influence |
| `Trloo.AdvantagesCommuteWithPermutation` | drkernel/algos.py:60-139 | permuting the rows of the batch permutes both output tensors |
| `PlainRloo.SingleTurnIsPlainRlooIff` | drkernel/algos.py:54-59 | with at most one turn per row, a row's output equals plain leave-one-out over its prompt's rows exactly when the row is empty, or it is alone with no reward off its span, or its rewards off the span times the number of other rows, plus the empty ones of these times the mean of the rest, are the others' rewards off their spans |
| `PlainRloo.EmptyRowChangesTheMean` | drkernel/algos.py:116-120 | rewards 1 and 3 and an empty row of one prompt: -2 for the first row, where plain leave-one-out gives -0.5 |
| `PlainRloo.RewardOffSpanIsLost` | drkernel/algos.py:98-101 | a reward on a token that was not generated counts for plain leave-one-out and not here |
| `RewardPipeline.RewardOfTurn` | drkernel/agent/kernel_agent_loop.py:384-384 | a turn's reward is its evaluation's, or the penalty without a kernel |
| `RewardPipeline.TurnRewardsReachTrloo` | drkernel/trainer/drkernel_async_trainer.py:326-347 | from the agent loop through redistribution to the estimator, the span sums are the rewards of the turns exactly when no generation and no feedback is empty; a turn's return is then the discounted sum of the rest |
| `PassAtK.PassAtKUnbiased` | drkernel/trainer/drkernel_async_rollouter.py:99-119 | the product loop computes the unbiased estimate for every integer input, guards included |
| `PassAtK.DrawsCount` | drkernel/trainer/drkernel_async_rollouter.py:103-103 | C(n, k) counts the k-element subsets |
| `PassAtK.FractionCountsDraws` | drkernel/trainer/drkernel_async_rollouter.py:99-110 | the estimate is the exact share of k-subsets of the rollouts that contain a hit |
| `PassAtK.FractionInUnit` | drkernel/trainer/drkernel_async_rollouter.py:99-119 | it lies in [0, 1] |
| `PassAtK.MonotoneInHits` | drkernel/trainer/drkernel_async_rollouter.py:99-119 | more hits never lower it |
| `PassAtK.MonotoneInDraws` | drkernel/trainer/drkernel_async_rollouter.py:99-119 | larger k never lowers it |
| `PassAtK.EndsOfTheScale` | drkernel/trainer/drkernel_async_rollouter.py:108-110 | c/n at k = 1, the any-of-n indicator at k = n |
| `PassAtK.PromptIndicators` | drkernel/trainer/drkernel_async_rollouter.py:355-369 | the naive tag says whether one of the n scores is at least one half, the unbiased value is the share of draws of min(k, n) scores with such a one, or 0 for k <= 0; they agree for k >= n, and the estimate never exceeds the indicator |
| `SnakeSort.SnakeSortIndices` | dapo_predictor/predictor_utils.py:6-36 | error cases exactly as raised; otherwise prompts go by the first score of their samples, highest first and earlier first among equals, prompt r * (2m) + j of that order to rank j and prompt r * (2m) + m + j to rank m - 1 - j, and the ranks' samples are joined |
| `SnakeSort.BucketsAre` | dapo_predictor/predictor_utils.py:24-29 | bucket by bucket and place by place, which prompt of the order stands there |
| `SnakeSort.SortedPrompts` | dapo_predictor/predictor_utils.py:20-23 | the order is by the scores of the rows that the prompts start with |
| `SnakeSort.SnakeOrderIsPermutation` | dapo_predictor/predictor_utils.py:24-36 | the result is a permutation of all samples |
| `SnakeSort.SamplesStayTogether` | dapo_predictor/predictor_utils.py:32-36 | the samples of a prompt stay on consecutive positions |
| `SnakeSort.LoadsDifferByTheSpread` | dapo_predictor/predictor_utils.py:24-29 | when the ranks divide the prompts, two ranks' loads differ by at most highest minus lowest score |
| `SnakeSort.LoadsAreBounded` | dapo_predictor/predictor_utils.py:24-29 | for any prompt count and scores of any sign they differ by at most the highest score, plus twice the amount by which the lowest is below zero |
| `SnakeSort.HighestBoundsLoadsIff` | dapo_predictor/predictor_utils.py:24-29 | the highest score bounds the difference for all batches with scores from `low` on exactly when `low` is not negative |
| `SnakeSort.BoundsAreReached` | dapo_predictor/predictor_utils.py:24-29 | both bounds are attained for every range of scores, so neither can be improved |
| `SnakeSort.SnakeBalancesLoads` | dapo_predictor/predictor_utils.py:20-31 | all three bounds for the loads of the prompts as they were given, not sorted |
| `SnakeSort.RankSizesDifferByOne` | dapo_predictor/predictor_utils.py:24-29 | rank sizes differ by at most one |
| `SnakeSort.EqualChunksAreBuckets` | dapo_predictor/predictor_utils.py:31-36 | when the ranks divide the prompts, equal consecutive chunks of the result are the buckets |
| `ReverseIndex.BuildReverseIdx` | dapo_predictor/predictor_dapo_trainer.py:222-248 | the reverse index exists exactly when the new uid column permutes a prefix of the old one; a missing key is raised exactly when the new column is not contained in the old |
| `ReverseIndex.RestoredColumn` | dapo_predictor/predictor_dapo_trainer.py:223-228 | the reverse index is a permutation and restores the uid column even with repeated uids |
| `ReverseIndex.ReverseIsUnique` | dapo_predictor/predictor_dapo_trainer.py:229-248 | it is determined by the occurrence counts: equal uids come back in their new order |
| `PredictorOrder.ComputePredictorScore` | dapo_predictor/predictor_worker.py:295-319 | on one rank every n-th row is scored and speaks for the rows up to the next, the last window cut to the batch |
| `PredictorOrder.SnakeSortSeesScores` | dapo_predictor/predictor_dapo_trainer.py:46-58 | from the joined outputs of all ranks the sort reads a prompt's own score if the rank with its first row starts at a first row, and the score of the prompt before otherwise |
| `PredictorOrder.AllScoresAreSeenIff` | dapo_predictor/predictor_dapo_trainer.py:46-58 | all prompts keep their scores, whatever these are, exactly when every rank that has a first row starts at one |
| `PredictorOrder.ReorderKeepsGroups` | dapo_predictor/predictor_dapo_trainer.py:60-68 | reordering the rows by the packed samples is reordering the prompts' groups |
| `PredictorOrder.ReorderedAreGroups` | dapo_predictor/predictor_dapo_trainer.py:434-436 | after it the batch still consists of whole groups of different prompts |
| `PredictorOrder.BalanceAndRestore` | dapo_predictor/predictor_dapo_trainer.py:546-552 | after any balancing permutation the restore succeeds, with the old uid column and the same rows |
| `PredictorOrder.RestoredBlock` | dapo_predictor/predictor_dapo_trainer.py:602-605 | block k then holds, in some order, exactly the rows of the k-th group |
| `PredictorOrder.RanksAgree` | dapo_predictor/predictor_worker.py:376-384 | ranks that get whole blocks compute together the examples one rank would |
| `PredictorOrder.LabelsFollowPrompts` | dapo_predictor/predictor_worker.py:353-398 | block k trains on the k-th group's prompt, with a label that is the length of a row of that group that no row of it exceeds, divided by a fortieth of the response length or by 1 |
| `PredictorOrder.AccumulatedAre` | dapo_predictor/predictor_dapo_trainer.py:511-513 | over any number of generations, each with its own packing order, the accumulated rows are the surviving groups, whole, of different prompts, in packing order |
| `PredictorOrder.PredictorSeesItsPrompts` | dapo_predictor/predictor_dapo_trainer.py:499-552 | whatever generations filled the batch, each packed in its own order, after the cut, any balancing and the restore, example k is the prompt of the k-th surviving group, in packing order, with the length of its longest row divided by a fortieth of the response length or by 1 |
| `Groups.VarianceSeesDifferences` | dapo/dapo_ray_trainer.py:256-270 | a positive standard deviation is a metric that is not constant |
| `Groups.TestGroup` | dapo/dapo_ray_trainer.py:264-270 | a group is kept exactly when two values of its metric differ or it is a single rollout |
| `Groups.FilterGroups` | dapo/dapo_ray_trainer.py:255-278 | rows whose uid is kept, in order, and the number of kept prompts |
| `Groups.FilteredAreWorthy` | dapo/dapo_ray_trainer.py:255-278 | for any rows, what is kept are, in order, the rows of the uids with two rows that differ in the metric or with a single row, and the number is that of these uids |
| `Groups.FilterOnGroups` | dapo/dapo_ray_trainer.py:255-278 | on whole groups the row filter keeps exactly the informative groups, whole and in order, and counts them |
| `Groups.CutAtGroups` | dapo/dapo_ray_trainer.py:297-299 | cutting at a multiple of n keeps the first groups whole |
| `DynamicSampling.Trainer.Generation` | dapo/dapo_ray_trainer.py:240-299 | one pass of the loop body: replace or accumulate, then train, ask for more or raise |
| `DynamicSampling.Trainer.Fit` | dapo/dapo_ray_trainer.py:142-145 | the loop over the batches of the epochs from the current one on, which is computed from the step to come; every step but the last has a number below total_training_steps, and the fit is over exactly when the last one's has reached it, or the error ended it |
| `DynamicSampling.RunsMean` | dapo/dapo_ray_trainer.py:240-299 | for every run: rows number prompts times n; each step uses the first train_batch_size informative groups of its own generations and stops at the first generation that brings enough; steps take up generations without gap; gen_steps counts all of them; the limit is kept and failure means it was used up |
| `DynamicSampling.RunsStopInTime` | dapo/dapo_ray_trainer.py:423-440 | for every run, with and without the filter: only the last recorded step can have a number of at least total_training_steps, and the run is finished exactly when it has |
| `DynamicSampling.UnfilteredRunsMean` | dapo/dapo_ray_trainer.py:240-241 | without the filter every generation is a step of its own on all of its rows, and nothing is accumulated |
| `DynamicSampling.StepMeansAt` | dapo/dapo_ray_trainer.py:423-440 | each recorded step has its number and starts at the generation after the previous step's last |
| `DynamicSampling.StepsAreInformative` | dapo/dapo_ray_trainer.py:264-299 | a step trains on train_batch_size whole groups of different prompts, each varying in the metric or single |
| `RankBalance.RankOrderKeeps` | dapo/dapo_transfer_queue/dapo_ray_trainer.py:350-353 | even places followed by reversed odd places is a permutation of the rank's samples |
| `RankBalance.RankOrderIsHill` | dapo/dapo_transfer_queue/dapo_ray_trainer.py:350-353 | workloads rise to the middle and fall from there |
| `RankBalance.HillEnds` | dapo/dapo_transfer_queue/dapo_ray_trainer.py:350-353 | first and last are the two smallest workloads |
| `RankBalance.BalanceRanks` | dapo/dapo_transfer_queue/dapo_ray_trainer.py:342-354 | every rank's part is reordered that way, read alternately from the front and from the end it goes by workload and index, and the concatenation is a permutation of the batch |
| `TransferQueue.ListTrainer.Generation` | dapo/dapo_transfer_queue/dapo_ray_trainer.py:160-369 | one pass of the list-and-concatenate loop, with partition puts and clears; what is stored for a step are its rows in balanced order, rank by rank |
| `TransferQueue.ListTrainer.Fit` | dapo/dapo_transfer_queue/dapo_ray_trainer.py:160-161 | the loop over the batches of all epochs, always from the first; every step but the last has a number below total_training_steps, and the fit is over exactly when the last one's has reached it, or the error ended it |
| `TransferQueue.ListRunsStopInTime` | dapo/dapo_transfer_queue/dapo_ray_trainer.py:564-572 | for every run of this loop, with and without the filter: only the last recorded step can have a number of at least total_training_steps, and the run is finished exactly when it has |
| `TransferQueue.UnfilteredListRunsMean` | dapo/dapo_transfer_queue/dapo_ray_trainer.py:268-333 | without the filter every generation is a step of its own, on its first train_batch_size times n rows |
| `TransferQueue.AgreesIff` | dapo/dapo_transfer_queue/dapo_ray_trainer.py:268-333 | the two loops agree on a generation exactly when filtering is on or the generation is no larger than a training batch |
| `TransferQueue.BalanceBatch` | dapo/dapo_transfer_queue/dapo_ray_trainer.py:342-361 | the stored rows are a permutation dealt out to the ranks, evenly when they divide it, with each rank's workloads rising and then falling |
| `TransferQueue.BalancedKeepsRows` | dapo/dapo_transfer_queue/dapo_ray_trainer.py:342-361 | storing in balanced order loses no row and adds none |
| `TransferQueue.RunsAgree` | dapo/dapo_transfer_queue/dapo_ray_trainer.py:154-333 | on the same generations the listing loop refines the incremental one over every run: same rows, counters, steps and outcome |
| `TransferQueue.SameEpochsIff` | dapo/dapo_ray_trainer.py:142-144 | after loading `loadedSteps` steps both trainers are fed the same epochs exactly when loadedSteps + 1 is less than the batches per epoch, or there are no epochs |
| `TransferQueue.FitsAgree` | dapo/dapo_transfer_queue/dapo_ray_trainer.py:160-161 | under that condition the whole fits agree, from the checkpoint on |
| `TransferQueue.FreshStartDiffers` | dapo/dapo_ray_trainer.py:142-144 | a fresh start with one batch per epoch and one epoch: the incremental trainer trains nothing, the other one step |
| `TransferQueue.PartitionsAreFreshAndCleared` | dapo/dapo_transfer_queue/dapo_ray_trainer.py:182-185 | no partition name is used twice, and after each completed step every partition put so far has been cleared |
| `TransferQueue.TrainedClears` | dapo/dapo_transfer_queue/dapo_ray_trainer.py:553-556 | the clears at the end of a step leave nothing open |
| `ExpertPruning.FullKeep` | small_for_large/expert_pruned.py:64-76 | the keep lists exist exactly when every given list has target distinct experts in range; skipped layers keep all, others their sorted set or the first target |
| `ExpertPruning.ConfiguredCountIsRightIff` | small_for_large/expert_pruned.py:136-136 | the number of experts written into the configuration is that of every layer exactly when there is no layer or nothing is pruned |
| `ExpertPruning.OldToNew` | small_for_large/expert_pruned.py:78-88 | the map is total into [0, target), inverts keep on kept experts and folds the others by remainder; it fails exactly when a kept expert does not exist or the target is zero |
| `ExpertPruning.RenamingIsInjective` | small_for_large/expert_pruned.py:154-206 | two weights never get the same new name |
| `ExpertPruning.RenameAll` | small_for_large/expert_pruned.py:95-107 | every weight that is not an expert's, and every weight of the first three layers, is written to its file under its own name; an expert of a later layer is written under the index of its place in the keep list, or dropped if it has none; every gate is written with its kept rows; nothing else is written |
| `ExpertPruning.Prune` | small_for_large/expert_pruned.py:47-107 | the whole pruning: it succeeds exactly when keep lists exist and every gate weight that is cut has one entry per old expert; then the file and the weight map hold every entry under its new name, in terms of the entries and keep lists alone |
| `ExpertPruning.PrunedHolds` | small_for_large/expert_pruned.py:101-107 | so what is no expert's nor gate's, or lies in the first three layers, is found unchanged under its own name in file and weight map, every gate weight is there, and an expert weight is gone exactly when its layer is pruned and its expert is not kept |
| `ExpertPruning.ExpertsStayWithRouter` | small_for_large/expert_pruned.py:167-203 | new expert j has the weights and the gate row of expert keep[j] |
| `ExpertPruning.TopKIsUnique` | small_for_large/expert_pruned.py:184-203 | a lowest-index-first top-k is unique |
| `ExpertPruning.TopKInsideKeep` | small_for_large/expert_pruned.py:69-74 | because keep is sorted, a top-k inside keep is the top-k of the pruned scores |
| `ExpertPruning.RoutingIsPreservedIff` | small_for_large/expert_pruned.py:184-203 | pruned routing picks the same experts in the same order exactly when the original choice lies inside keep |
| `ExpertPruning.PrunedLayerRoutesTheSame` | small_for_large/expert_pruned.py:184-203 | the same with the sliced gate weight and bias, for every token |
| `SampleSelection.RoundIsNearest` | drkernel/filters/unified_filter.py:703-703 | `round` gives the nearest integer and the even one of two |
| `SampleSelection.AllocationFits` | drkernel/filters/unified_filter.py:698-743 | the allocation never asks a class for more samples than it has |
| `SampleSelection.AllocationIsProportional` | drkernel/filters/unified_filter.py:698-712 | with two slots or more both classes are represented, as close to their share as that allows |
| `SampleSelection.SingleSlotIsNegative` | drkernel/filters/unified_filter.py:706-712 | with one slot a negative sample is taken whatever the ratio |
| `SampleSelection.SelectSamples` | drkernel/filters/unified_filter.py:655-761 | exactly target distinct samples; the allocated numbers per class; deterministically, none left out is more efficient (positive) or shorter (negative) |
| `SampleSelection.FillSlots` | drkernel/filters/unified_filter.py:722-759 | one class's slots: all of it, its best, or a random draw |
| `SampleSelection.BestBy` | drkernel/filters/unified_filter.py:731-752 | argsort and cut: no candidate left out scores higher |
| `BatchFilter.PostInit` | drkernel/filters/unified_filter.py:94-114 | accepted exactly when twice the minimum exceeds the target; the default is the smallest such minimum |
| `BatchFilter.ApplyGate` | drkernel/filters/unified_filter.py:262-299 | stage 0 leaves the samples the gate passed in the groups that keep enough of them |
| `BatchFilter.CheckGroups` | drkernel/filters/unified_filter.py:301-357 | stage 1 clears exactly the low-variance and over-long groups, judged on the original groups |
| `BatchFilter.OverLongGroupsArePoorIff` | drkernel/filters/unified_filter.py:124-131 | given a length limit, the groups whose responses all exceed it are cleared in all batches exactly under `remove_clip` |
| `BatchFilter.CheckRewards` | drkernel/filters/unified_filter.py:375-381 | stage 2 keeps samples at or above the threshold |
| `BatchStages.PoorIs` | drkernel/filters/unified_filter.py:301-357 | a group is cleared exactly if variance is asked for and the squares of its rewards' distances to their mean add up to less than n - 1 millionths, or, under `remove_clip` with a limit, no response stays below the limit or fewer than asked for do |
| `BatchStages.PassesIs` | drkernel/filters/unified_filter.py:244-381 | the masks let through exactly the samples that the gate lets through together with enough others of their group (asked only if some group has spare samples), whose group is not cleared and whose reward reaches the threshold |
| `BatchSelection.CollectGroups` | drkernel/filters/unified_filter.py:410-439 | usable groups in first-occurrence order with their surviving samples, and the poor and single counts |
| `BatchSelection.EveryGroupIsCounted` | drkernel/filters/unified_filter.py:417-428 | usable, poor and single groups are all the groups |
| `BatchSelection.ChooseGroups` | drkernel/filters/unified_filter.py:441-470 | min(usable, target) distinct groups; an incomplete one only if all complete ones are chosen |
| `BatchSelection.PickSamples` | drkernel/filters/unified_filter.py:490-503 | a chosen group gives min(survivors, target size) distinct samples of its own; if it has more survivors than that, both efficiency strategies take the allocated number of samples with a positive reward, and the deterministic one leaves out no positive sample with a higher reward per token than a picked one and no other sample shorter than a picked one |
| `BatchSelection.PPOBatchFilter.FilterBatch` | drkernel/filters/unified_filter.py:177-513 | the whole filter in terms of the batch: the chosen groups are usable, hold all their kept samples in batch order, are as many as asked for, and complete ones come first; the picks are the strategy's; the statistics count usable groups, single samples, the rest and full picks |
| `BatchSelection.FilterGuarantee` | drkernel/filters/unified_filter.py:204-208 | indices are distinct, in range and pass every mask; sizes per group and the total stay in their bounds |
| `FilterPipeline.GatedPassesIff` | drkernel/filters/unified_filter.py:264-299 | with oversampling a sample survives all masks exactly when it passes both precision gates, its group keeps enough samples that do, and group and reward are good enough |
| `FilterPipeline.SelectedPassTheGates` | drkernel/filters/unified_filter.py:264-273 | every selected sample of an oversampled batch has passed both precision gates |
| `FilterPipeline.CompletePicksAreFull` | drkernel/filters/unified_filter.py:506-510 | the complete picks are those of groups with at least the target size |
| `FilterPipeline.EveryChoiceIsBestIff` | drkernel/filters/unified_filter.py:441-470 | the choice yields as many full picks as any of its size, whatever is drawn, exactly when no incomplete group has to be drawn or the incomplete ones are all oversized or all undersized |
| `FilterPipeline.BestIsBest` | drkernel/filters/unified_filter.py:441-470 | a best choice has at least as many full picks as any other choice of usable groups of its size |
| `TwoGate.StableMeans` | drkernel/filters/two_gate_filter.py:362-376 | gate 2 passes a sample exactly when every valid token lies above the threshold |
| `TwoGate.RejectedWithoutUnstableTokens` | drkernel/filters/two_gate_filter.py:375-380 | a sample is rejected with no token counted as unstable exactly when its smallest difference is the threshold itself |
| `TwoGate.TwoGateRejectionFilter.Gate1` | drkernel/filters/two_gate_filter.py:253-309 | gate 1's verdicts and what they add to the statistics |
| `TwoGate.TwoGateRejectionFilter.Gate2` | drkernel/filters/two_gate_filter.py:311-390 | gate 2's verdicts and what they add to the statistics |
| `TwoGate.TwoGateRejectionFilter.FilterBatch` | drkernel/filters/two_gate_filter.py:392-515 | the whole filter: a shape error, or in ascending order the samples whose mean difference stays below the bound on both sides and none of whose valid tokens lies at or below the threshold; what the counters, buckets, lists and the history gain is stated from the tokens, including the traces of gate 1 when gate 2 fails |
| `TwoGate.BiasIs` | drkernel/filters/two_gate_filter.py:272-288 | the bias is how far the mean difference of the two log-probabilities over the valid tokens is from zero |
| `TwoGate.AcceptedAre` | drkernel/filters/two_gate_filter.py:431-515 | the accepted samples in terms of the tokens |
| `TwoGate.BatchLeaves` | drkernel/filters/two_gate_filter.py:253-390 | what a batch leaves in the lists and in the length buckets: deviations, verdicts per range of lengths, and numbers of tokens below the threshold |
| `TwoGate.ReturnsWhatPasses` | drkernel/filters/two_gate_filter.py:431-515 | returned indices are exactly the samples that pass all active gates |
| `TwoGate.RejectionsBalance` | drkernel/filters/two_gate_filter.py:134-155 | over any run, gate1 + gate2 - both samples were rejected and the rest were returned |
| `TwoGate.AcceptanceRateMeans` | drkernel/filters/two_gate_filter.py:155-159 | the reported acceptance rate is the returned share |
| `TwoGate.BucketsBalance` | drkernel/filters/two_gate_filter.py:295-307 | bucket totals are the samples gate 1 checked, and their rejections are the gate-1 rejections as long as no batch failed |
| `TwoGate.HistoryIsRecent` | drkernel/filters/two_gate_filter.py:504-508 | the history holds the rates of the last hundred processed batches |
| `ResumableValidation.RecordRoundTrip` | drkernel/trainer/drkernel_async_rollouter.py:664-679 | a written line reads back as its row, its key, its reward fields plus the score, and the turns that its fields tell |
| `ResumableValidation.BareLine` | drkernel/trainer/drkernel_async_rollouter.py:715-742 | a line with none of the structural fields, no score and no turns has no key and counts with an unknown source, score 0 and turn count 0, and all its fields are reward fields |
| `ResumableValidation.Validator.Restart` | drkernel/trainer/drkernel_async_rollouter.py:685-743 | a new process rebuilds rows, reward fields, turn counts and completed keys from the dump |
| `ResumableValidation.Validator.Chunk` | drkernel/trainer/drkernel_async_rollouter.py:494-613 | one chunk evaluates what is missing, extends rows, fields and turn counts column by column and appends its lines |
| `ResumableValidation.ExtendedIsFolded` | drkernel/trainer/drkernel_async_rollouter.py:579-588 | extending every list by a column is adding the rows one by one |
| `ResumableValidation.DumpIsPrefix` | drkernel/trainer/drkernel_async_rollouter.py:598-613 | after any crashes, for any reward fields, the dump holds the lines of the first prompts, once each and in order |
| `ResumableValidation.ResumedRowsAndDump` | drkernel/trainer/drkernel_async_rollouter.py:466-479 | after any crashes and with any chunk sizes the final dump, completed keys and rows equal an uninterrupted run's, for any reward fields |
| `ResumableValidation.ResumedEqualsUninterruptedIff` | drkernel/trainer/drkernel_async_rollouter.py:728-742 | the reward fields equal an uninterrupted run's exactly when the score is one of them or nothing was reloaded, the turn counts exactly when every dumped line tells the turns its batch counted |
| `ResumableValidation.ResultIsComplete` | drkernel/trainer/drkernel_async_rollouter.py:595-596 | however often the run was resumed, every prompt has its n rollouts on contiguous rows, each with its row and its value of every reward field |
| `TurnDivision.GuardAfterCrashesIff` | drkernel/trainer/drkernel_async_rollouter.py:621-623 | after any crashes the length check passes exactly when the score is a reward field anyway, nothing was reloaded, or nothing was left to do |
| `RepeatedKeys.AllPromptsEvaluatedIff` | drkernel/trainer/drkernel_async_rollouter.py:497-512 | over all crashed runs and the last one every prompt is evaluated exactly when the first chunk that has its key has all prompts with that key |
| `RepeatedKeys.RestartsAreTransparent` | drkernel/trainer/drkernel_async_rollouter.py:715-717 | crashes leave no trace in what is evaluated: the dump and the keys are those of one run over all chunks that were gone through |
| `TurnDivision.DivideRewards` | drkernel/trainer/drkernel_async_rollouter.py:205-224 | rewards are divided by the first denominator list of the right length: the reward field, else the turn counts on the side, else nothing |
| `TurnDivision.PerTurnMeans` | drkernel/trainer/drkernel_async_rollouter.py:219-224 | the quotient times the divisor is the reward, and dividing changes nothing exactly when the divisor is 1 or the reward 0 |
| `TurnDivision.RewardsAreDividedOnce` | drkernel/trainer/drkernel_async_rollouter.py:560-563 | after any crashes and for any reward fields every row's undivided reward is divided once: by its own field, or its batch's count, or by 1 if it was reloaded without the field |
| `TurnDivision.ResumedRewardsIff` | drkernel/trainer/drkernel_async_rollouter.py:205-224 | after any crashes a run ends in the rewards per turn of an uninterrupted run exactly when the length check passes and the reward function tells the turns, or the batches do not count them, or every dumped row has at most one turn or no reward |
| `TurnDivision.TurnCountsAreLost` | drkernel/trainer/drkernel_async_rollouter.py:728-732 | one rollout of reward 1 in three turns and no reward fields: after a crash and a resume it ends as 1, uninterrupted as a third |

## Left out

- Engines, Ray actors, placement groups, HTTP calls and resource probing: only message order and success or failure are kept.
- Recovery of log-probabilities, routed experts and preemption counts: the resume path treats them differently from tokens, so the exactness results cover token ids and the finished flag only.
- Aborts by stop strings and other reasons outside the next-token oracle: a request ends with the oracle's end or its budget.
- The consumer's pop and apply are one step; a rebuild may find the queue empty while one message is still to be applied.
- Messages that an actor had handed to the queue but the queue had not accepted when the actor was killed count as not enqueued, and what is consumed between the emptying of the dictionary and the first read of the next step as consumed after it.
- Writing the auto-save file is one step: that emptying the dictionary disturbs the write itself, and so ends the saving thread, is not modelled.
- Fault detection by timeout and signal, and the resource wait inside a rebuild round: a round of `RolloutRetry` is its outcome.
- `shutil.copy` of the auto-save file is one step.
- Rounding of floating-point numbers: standard deviations below 1e-3 are compared through the variance, rounding in `round(target * ratio)` is of the exact product, and NaN and infinity do not occur; an infinite minimum is an absent one.
- `masked_mean` comes from a library; its guard of 1e-8 is modelled, a sequence axis of length zero is not.
- Perplexity lists and averages of the two-gate statistics, log messages and the per-prompt statistics of the batch filter: sums and appends that add only easy members.
- Groups of target size zero or less: the batch filter's configuration is taken with a target of at least one sample.
- The partitioning heuristic: any partition of the samples over the ranks, even where they divide the batch; where they do not, the library's partition raises. `_balance_batch` of the predictor trainer is any permutation.
- Hidden states and the scorer: what the scorer makes of a row is a parameter, the same for all rows of a prompt. The extraction of one replica per sequence-parallel group in `update_predictor` is left out.
- Expert names are a datatype; the regular expressions that parse them, `load_keep_dict_from_json`, file copying and the rewritten configuration are not modelled. Weights have one or two dimensions.
- Resume keys are given with the prompts; the JSON encoding is taken to be faithful, reward fields do not use the names of the structural fields, and a reward field called score is the score.
- Reward and turn-count fields that are texts: a text counts as zero, where Python parses numerals or raises.
- The position inside an epoch that a restored data loader may start from: an epoch's batches are a parameter of both trainers.
- `VAL_RESUME=0`, the merged return value and the parent's metrics in validation: single branches without state.
- Feedback text, prompts, chat templates and reward formulas: string formatting and single-branch facts; a turn's reward is a parameter.
- Model mathematics (log-probabilities, losses, entropy, KL) and source patches or launchers.
