# Verified model of the vime rollout data path

Dafny models of the parts of vime that move training data: the agent trajectory
builder, the dataset stream and the durable prompt queue, the training consumer
and reader recovery, the sample codec, batch conversion and metric reduction,
checkpoint selection and rewind, and detached command execution in a sandbox.

Where the source updates objects in place the model has a class, and its methods
are proved against specification functions on values; the lemmas about those
functions are the project's results. A crash is modelled by letting a run of
durable writes end anywhere.

| part | files |
|---|---|
| token drift, builders, emission | `TokenDrift`, `Turns`, `BuilderModel`, `BuilderHistory`, `ReplayAlignment`, `SampleEmission`, `SampleBuilder` |
| message tree, linearization, sessions | `MessageTree`, `Linearize`, `Packing`, `SessionModel`, `SessionRuns`, `Conversations`, `TrajectoryManager` |
| dataset stream, refill, regeneration | `DataStream`, `RolloutDataSource`, `PromptQueue`, `Regeneration` |
| training consumer, queue runs, recovery | `ConsumerCursor`, `QueueProtocol`, `QueueInvariants`, `QueueRuns`, `ReaderRecovery`, `QueueController` |
| sample codec | `CodecValues`, `ObjectGraph`, `CodecEncode`, `CodecDecode`, `CodecRoundTrip`, `CodecAgreement`, `CodecSharing`, `Publications`, `SampleCodec`, `ColumnSelection`, `SelectionAgreement`, `RankViews` |
| rewards, loss, metrics | `RealSums`, `RewardGroups`, `RewardSegments`, `RewardPositions`, `RewardOutcomes`, `RewardNormalizer`, `RewardMeaning`, `RolloutLoss`, `ContextParallel`, `MetricReduction` |
| checkpoints | `CheckpointModel`, `CheckpointSafety`, `CheckpointDirectory` |
| detached commands | `DetachedExec`, `SandboxClient` |

`dafny verify dfyconfig.toml` verifies everything.

## Main results

- Over every run of `record_turn`, each generated turn is trained at exactly one
  place, on the chain of the first leaf below it (`SessionRuns.RunTrainsOnce`), and
  without a cap the emitted loss masks conserve the trained tokens
  (`SessionRuns.RunConserves`). A recorded turn is found again
  (`MessageTree.RecordFound`), and a chain is cut into samples exactly where a turn
  does not follow the one before it (`Packing.PackCutsExactly`), so a conversation
  that replays itself is one sample (`Conversations.ConversationIsOneSample`).
- Every emitted sample is explained, position by position, by the turns its
  builder accepted: token, mask, log-probability, ragged top-p support, top-k row
  and routed experts (`SampleEmission.EmittedSampleExplained`).
- Refills serve exactly the dataset stream over every run with failures and
  crashes (`PromptQueue.RunServesStream`), and regeneration inverts it
  (`Regeneration.RereadInverts`): every saved dataset group once and no other
  (`Regeneration.RestoredOnce`).
- The compressed cursor refines a plain set; two advances in either order end in
  the same state, fetch cursor included (`ConsumerCursor.ProgressCommutes`), and for
  the sets order does not matter exactly when source positions are transitively
  closed (`ConsumerCursor.OrderIndependentIffTransitive`).
- With a crash after any write, the processed positions are exactly those accounted
  for and the retained batches are the acknowledged, unfinished ones
  (`QueueRuns.ReachableJustified`); over any sequence of retirements no accepted
  group is lost or handed out twice (`ReaderRecovery.NothingLostNothingTwice`).
- Publishing and loading is a round trip (`SampleCodec.PublishObject`). Selecting
  columns while loading has the contents of selecting afterwards for every
  dictionary and selection (`SelectionAgreement.SelectionKeepsContents`), so both
  transports give a rank the same contents, whether the batch is converted to
  tensors before the selection or after it (`RankViews.ViewsKeepContents`).
- A segment is trained with its rollout's outcome against those of the distinct
  rollouts of its group (`RewardMeaning.AdvantageMeans`).
- Adding a segment to a rollout keeps every other value, over all outcomes, exactly
  when no group is cut elsewhere (`RewardOutcomes.ValuesKeptIff`).
- Loss and metrics do not depend on the layout of ranks, per rollout
  (`MetricReduction.ReductionsAgree`) and per token
  (`MetricReduction.PerTokenCancels`).
- The default checkpoint is committed, whole and the newest the tracker allows
  (`CheckpointSafety.ReachableSelection`), and an interrupted rewind is retried at
  the same boundary (`CheckpointSafety.RewindRetried`).
- A detached command is spawned at most once (`DetachedExec.SpawnsAtMostOnce`), and
  its call returns only its own code exactly when no command of the tag is running
  at its start (`DetachedExec.OwnCodeIff`).

## Where the code does not do what one would expect

- A cap below the leading prompt makes `response_length` negative: it equals the
  length of the emitted mask exactly when the cap is 0 or at least the leading
  prompt (`SampleEmission.CapExact`).
- Loading shares one object per stored tensor whatever the later descriptors say
  about its kind and its validated mark. The contents always come back; the marks do
  if and only if all handles of one place agree (`SampleCodec.RoundTrip`), and they do
  for every selection if and only if the handles inside the text-keyed columns agree
  (`SelectionAgreement.SelectionExactIff`). `SampleCodec.MarksCanBeLost` is a value
  that comes back with other marks, and `SelectionAgreement.MarksDependOnSelection` a
  dictionary whose selected column shows another mark than the whole.
- A dictionary with a key that is not a scalar loads as a whole, and every selection
  from it fails (`SelectionAgreement.SelectionKeepsContents`).
- A conversion that gives `total_lengths` itself keeps them in memory, while
  publishing replaces them by the token lengths: the ranks' views are the same if and
  only if the two are (`RankViews.ViewsKeepContents`).
- Acknowledging a batch after it was finished would retain it for ever; one write
  keeps the invariant if and only if it is not such a late acknowledgement
  (`QueueRuns.StepKeepsInvIffLegal`).
- A batch without prompt groups is grouped by the order in which rollouts first
  appear, so a segment put ahead of its rollout can regroup the batch:
  `RewardPositions.RegroupedByOrder` is a batch in which another sample's value goes
  from 1 to -1. All values are kept for all outcomes if and only if the rollout's
  number stays in its block or groups hold one rollout
  (`RewardOutcomes.ValuesKeptIff`).
- With context parallelism and an empty prompt the first token is summed by no
  rank; the ranks sum the whole response if and only if there is one rank, a prompt,
  no token, or nothing to count at the first token (`ContextParallel.RanksSumIsWhole`).
- If only the commit writes the tracker, a crash between the first marker and the
  tracker leaves a checkpoint that cannot be selected: the selection is good if and
  only if the tracker exists (`CheckpointSafety.FirstCommitWindow`,
  `CheckpointSafety.ReachableSelection`).
- `discard_future` removes files in name order, so a marker may outlive the builder
  state it lists; the pending session makes the retry independent of that
  (`CheckpointSafety.RewindRetried`).
- A command of the same tag that is still running when a call begins can leave its
  code for the new call; only own codes are returned if and only if none is
  (`DetachedExec.OwnCodeIff`, `DetachedExec.OldCodeReturned`).

## Model

| member | source | states |
|---|---|---|
| TokenDrift.FindCommonPrefix | vime/agent/trajectory.py:132-143 | the chunked scan returns the longest common prefix of the two token lists |
| SampleBuilder.SampleBuilder.ClassifyTokenDrift | vime/agent/trajectory.py:189-228 | the object decides CLEAN, REALIGN or FORK as the value model does and changes nothing |
| SampleBuilder.SampleBuilder.AppendTurn | vime/agent/trajectory.py:230-263 | the object's lists become those of the accepted turn on the old value |
| SampleBuilder.SampleBuilder.AppendReplay | vime/agent/trajectory.py:265-291 | captures are joined to the held ones across the gap |
| SampleBuilder.SampleBuilder.AlignToPrompt | vime/agent/trajectory.py:293-301 | tokens from the last response start on are replaced by the prompt's tail, unmasked |
| SampleBuilder.SampleBuilder.AppendTokens | vime/agent/trajectory.py:303-306 | the three lists grow together |
| SampleBuilder.SampleBuilder.HasTrainedResponse | vime/agent/trajectory.py:308-309 | true exactly when a position behind the leading prompt is masked in |
| SampleBuilder.SampleBuilder.ToSample | vime/agent/trajectory.py:311-359 | the emitted sample, with lists and captures truncated by the cap |
| BuilderHistory.ClassifyExactly | vime/agent/trajectory.py:189-228 | CLEAN exactly when the prompt extends all held tokens with joinable captures; REALIGN exactly when it leaves them inside the last response, nothing is captured and the new output is shorter than the threshold |
| BuilderHistory.AcceptedPrefix | vime/agent/trajectory.py:189-228 | a CLEAN prompt extends all held tokens; a REALIGN prompt agrees up to the last response start and carries no captures |
| BuilderHistory.AppendShape | vime/agent/trajectory.py:230-263 | after any accepted turn the tokens are its prompt followed by its output; masks and log-probabilities are the kept part, zeros over the prompt's tail, then the output's |
| BuilderHistory.AppendExplained | vime/agent/trajectory.py:230-306 | over any run of accepted turns every position of a live span carries the token, flag and log-probability of the turn that emitted it, and every other position is unmasked |
| ReplayAlignment.ConcatTopPAligned | vime/agent/trajectory.py:265-291 | joining ragged captures keeps the held slices, leaves the gap empty and shifts the new slices; offsets stay aligned |
| ReplayAlignment.AppendReplayExplained | vime/agent/trajectory.py:203-291 | slice i of the joined capture is the support captured by the turn that emitted response token i, empty on gap tokens |
| ReplayAlignment.AppendConsistent | vime/agent/trajectory.py:230-291 | an accepted turn keeps list lengths equal and captures one entry per response token |
| SampleEmission.CapExact | vime/agent/trajectory.py:318-333 | response_length is the length of the emitted mask exactly when the cap is 0 or at least the leading prompt |
| SampleEmission.TruncatedTopPAligned | vime/agent/trajectory.py:345-356 | truncation keeps every remaining slice and ends the offsets at the id count |
| SampleEmission.EmittedSampleExplained | vime/agent/trajectory.py:311-359 | the tokens are the last turn's prompt and output up to the cap; every masked-in position and capture slice belongs to the turn that produced it; exactly the captures that the turns have are present, the routed experts being the only turn's, up to one before the last token |
| SampleEmission.AppendCounts | vime/agent/trajectory.py:230-306 | a REALIGN removes exactly the trained tokens of the turn it overwrites; otherwise trained tokens only grow by the turn's output |
| SampleEmission.UncappedKeepsTrained | vime/agent/trajectory.py:308-359 | without a cap emission keeps every trained token, and a builder without a trained response holds none |
| Packing.PackGood | vime/agent/trajectory.py:554-575 | every builder of a chain is explained by the turns it accepted |
| Packing.PackKeepsTurns | vime/agent/trajectory.py:554-575 | splitting a chain loses, repeats and reorders no turn |
| Packing.ClassifyFollows | vime/agent/trajectory.py:189-228 | what a builder decides about a turn, told from the last turn it accepted: joined exactly when the turn follows that one, CLEAN exactly when it replays all of it |
| Packing.PackCutsExactly | vime/agent/trajectory.py:554-575 | a chain is cut exactly where a turn does not follow the one before it: every turn of a builder follows its predecessor, the first does not follow the last of the builder before |
| Packing.PackCounts | vime/agent/trajectory.py:554-575 | a chain has one builder for each run of turns that follow each other |
| Packing.TrainedExactly | vime/agent/trajectory.py:308-309 | a builder has a trained response exactly when one of its live turns is a trained, non-empty output |
| Packing.EmitEach | vime/agent/trajectory.py:596-600 | whatever the cap, one sample is emitted for each builder with a live trained output, in order, and no other; it is explained by that builder's turns and cut off at the cap |
| Packing.EmitKeepsTrained | vime/agent/trajectory.py:577-600 | dropping builders without a trained response loses no trained token |
| Packing.EmitExplained | vime/agent/trajectory.py:577-600 | every emitted sample comes from a builder that explains it |
| MessageTree.DescendSpells | vime/agent/trajectory.py:450-466 | the mount point is the longest matched path, matched by role and message, and no child has the next message under its role |
| MessageTree.MergesExactly | vime/agent/trajectory.py:468-524 | a rewrite is merged exactly onto an only assistant child that is a generated leaf shorter than the threshold |
| MessageTree.MergeSpells | vime/agent/trajectory.py:468-524 | merging a rewritten assistant message leaves a path that spells the matched prompt |
| MessageTree.RecordSpells | vime/agent/trajectory.py:381-403 | the path to the new leaf spells the prompt messages under their own roles, then the response, and the leaf is the generated turn |
| MessageTree.RecordFound | vime/agent/trajectory.py:381-466 | a recorded turn is found again: a walk for its prompt and its assistant response matches all of it |
| MessageTree.RecordKeeps | vime/agent/trajectory.py:450-552 | every earlier node, path and spelling is unchanged, except for at most one demoted leaf, which takes the rewritten message, loses its turn and spells the prompt up to there |
| MessageTree.RecordLeaves | vime/agent/trajectory.py:526-552 | after every recording every leaf is a generated turn |
| MessageTree.RecordCounts | vime/agent/trajectory.py:468-552 | generated nodes grow by one, less one if an earlier turn is demoted |
| Linearize.LeavesSound | vime/agent/trajectory.py:119-124 | leaves lists nodes without children below the start |
| Linearize.LeavesAround | vime/agent/trajectory.py:119-124 | the leaves below a node are one contiguous stretch of all leaves |
| Linearize.LeavesDistinct | vime/agent/trajectory.py:119-124 | no leaf is listed twice |
| Linearize.LeavesOrdered | vime/agent/trajectory.py:119-124 | leaves below an earlier child come before the leaves below a later one |
| Linearize.TrainedOnFirstLeafOnly | vime/agent/trajectory.py:427-435 | a turn on a chain is trained exactly when the chain is that of the first leaf below it |
| Linearize.EveryTurnTrained | vime/agent/trajectory.py:554-575 | every generated turn is trained on some chain |
| Linearize.TrainedSuffix | vime/agent/trajectory.py:554-575 | on each chain untrained turns come first and the trained suffix includes the leaf |
| Linearize.TrainedTokensConserved | vime/agent/trajectory.py:563-575 | over all chains the trained outputs are those of all generated turns, each once |
| SessionModel.PromptsFitSuffice | vime/agent/trajectory.py:577-600 | a cap no shorter than any recorded prompt is always admissible |
| SessionModel.SessionConserves | vime/agent/trajectory.py:405-442 | ones in all emitted masks equal all generated outputs minus those overwritten by a later REALIGN on their chain |
| SessionModel.SamplesExplained | vime/agent/trajectory.py:405-442 | every returned sample is explained by the turns of one builder of one chain |
| SessionModel.SamplesInOrder | vime/agent/trajectory.py:405-442 | the samples are, chain by chain and in order, one for each builder with a live trained output and no other, whatever the cap, each explained by its builder's turns and cut off at the cap |
| SessionModel.RecordKeepsSession | vime/agent/trajectory.py:381-403 | a recorded turn keeps the session invariant, with every node that only routes under its message's role |
| SessionRuns.RunCounts | vime/agent/trajectory.py:378-403 | over any run of calls the turn count is the generated nodes plus the demoted turns |
| SessionRuns.RunTrainsOnce | vime/agent/trajectory.py:405-442 | over any run of calls each generated turn is trained at one place of one chain, that of the first leaf below it, and at no other |
| SessionRuns.RunTrainsSuffix | vime/agent/trajectory.py:554-575 | over any run of calls what follows a trained turn on its chain is trained |
| SessionRuns.RunConserves | vime/agent/trajectory.py:405-442 | over any run of calls trained tokens are conserved |
| Conversations.ConversationIsOnePath | vime/agent/trajectory.py:381-403 | when every prompt replays the one before it and its response, the session is one path that carries the calls' turns in order |
| Conversations.ConversationIsOneSample | vime/agent/trajectory.py:405-442 | when their tokens follow each other as well, the session is returned as one sample: the last prompt and its output |
| TrajectoryManager.TrajectoryManager.FindMountPoint | vime/agent/trajectory.py:450-466 | the loop finds the deepest matching node and depth |
| TrajectoryManager.TrajectoryManager.TryMergeAssistantRewrite | vime/agent/trajectory.py:468-524 | demotes and rewrites the one leaf whose turn drifted within the threshold, or does nothing |
| TrajectoryManager.TrajectoryManager.MountPromptMessages | vime/agent/trajectory.py:526-533 | one routing node per remaining message, in order |
| TrajectoryManager.TrajectoryManager.AttachAssistantLeaf | vime/agent/trajectory.py:535-552 | adds the generated leaf and counts the turn |
| TrajectoryManager.TrajectoryManager.RecordTurn | vime/agent/trajectory.py:381-403 | only this session changes; its tree is the recorded one, its count grows by one, and an empty prompt is skipped |
| TrajectoryManager.TrajectoryManager.PathTo | vime/agent/trajectory.py:109-117 | walking up gives the path from the root |
| TrajectoryManager.TrajectoryManager.SplitChainIntoBuilders | vime/agent/trajectory.py:554-575 | claims the chain's turns in place and builds exactly the packed builders |
| TrajectoryManager.TrajectoryManager.ChainToSamples | vime/agent/trajectory.py:577-600 | the samples of one chain |
| TrajectoryManager.TrajectoryManager.GetTrajectory | vime/agent/trajectory.py:405-442 | returns the session's samples and removes the session; an unknown session gives none |
| TrajectoryManager.TrajectoryManager.DropSession | vime/agent/trajectory.py:444-446 | removes the session and its count |
| DataStream.StreamSplit | vime/data/data_source.py:104-132 | reading j and then k groups gives the j + k groups of one read, across epoch wraps |
| DataStream.EpochServesDataset | vime/data/data_source.py:104-117 | where an epoch's order is a permutation, the epoch serves the whole dataset, every prompt once, in that order |
| RolloutDataSource.RolloutDataSource.Shuffle | vime/utils/data.py:287-294 | an epoch's order depends on the epoch alone, and repeating it changes nothing |
| RolloutDataSource.RolloutDataSource.ReadPrompts | vime/data/data_source.py:106-119 | the read loop returns the next prompts of the stream and stops at its end position |
| RolloutDataSource.RolloutDataSource.GetSamples | vime/data/data_source.py:104-132 | the next groups of the stream with consecutive group and sample numbers, and the cursor after them |
| PromptQueue.RefillSize | vime/data/queue_data_source.py:501-502 | a refill takes what was asked for, but 8 groups below 8 and 64 above 64 |
| PromptQueue.RunServesStream | vime/data/queue_data_source.py:487-541 | over any run of refills that succeed, fail before the commit or are cut off, the submitted tasks are exactly the stream's prefix and the committed cursor names its end |
| PromptQueue.RunSubmits | vime/data/queue_data_source.py:501-539 | over every run the submitted tasks are as many as the successful refills ask for, each request clamped |
| PromptQueue.RunTaskIds | vime/data/queue_data_source.py:504-505 | task ids are consecutive group numbers: none twice, none skipped |
| PromptQueue.AdvanceUnique | vime/data/data_source.py:104-132 | a source that moved k groups stands at one cursor only |
| PromptQueue.Controller.RestoreCursor | vime/data/queue_data_source.py:492-499 | a refill starts from the committed cursor, whatever a failed one did to the source |
| PromptQueue.Controller.Refill | vime/data/queue_data_source.py:487-539 | tasks and cursor are committed together or not at all |
| PromptQueue.Controller.Crash | vime/data/queue_data_source.py:197-224 | a restart loses the source and nothing durable |
| Regeneration.RestoreDatasetCursor | vime/data/rewind.py:14-25 | a cursor with a negative counter or an offset past the dataset is refused before the producer changes, any other is taken over |
| Regeneration.RereadInverts | vime/data/rewind.py:77-88 | for every cursor reads can reach and every earlier group number, the arithmetic gives back the group first served under that number with its sample numbers |
| Regeneration.RestoredOnce | vime/data/rewind.py:51-93 | the dataset groups that are read again are exactly those of the saved groups, each once however many saved groups share it |
| Regeneration.OriginalsOnce | vime/data/rewind.py:58-91 | the saved original inputs are restored once for each digest, all of them and no other, and every group that is neither restored so nor read again goes back, in order |
| Regeneration.RestoresStream | vime/data/rewind.py:51-93 | every regenerated dataset group is the one of the stream |
| Regeneration.RereadOne | vime/data/rewind.py:77-88 | repositioning and reading one group, or refusing an impossible number |
| Regeneration.CollectOriginals | vime/data/rewind.py:60-65 | the loop over a group's original inputs |
| Regeneration.RegenerationGroups | vime/data/rewind.py:51-93 | the loop restores what the specification says and leaves the producer at the saved cursor |
| ConsumerCursor.Collect | vime/data/queue_data_source.py:730-739 | recorded positions are the held ones, the new ones and the sources of the new ones |
| ConsumerCursor.Swallow | vime/data/queue_data_source.py:740-744 | the cursor swallows the run of positions it meets and no position is lost |
| ConsumerCursor.Advance | vime/data/queue_data_source.py:730-749 | the compressed state stands for the old set, the new positions and their sources; exceptions lie above the cursor and below the fetch cursor, which is the least such |
| ConsumerCursor.Canonical | vime/data/queue_data_source.py:745-749 | equal sets have equal compressed states |
| ConsumerCursor.AdvanceIsUnion | vime/data/queue_data_source.py:730-749 | on closed sets advancing is union with the closure and keeps the set closed |
| ConsumerCursor.AdvanceCommutes | vime/data/queue_data_source.py:730-749 | advancing is idempotent and order-independent |
| ConsumerCursor.OrderIndependentIffTransitive | vime/data/queue_data_source.py:1175-1187 | order never matters exactly when returned groups carry transitively closed source positions |
| ConsumerCursor.FetchSteps | vime/data/queue_data_source.py:747 | fetching in two steps ends where one step ends |
| ConsumerCursor.AdvanceUnique | vime/data/queue_data_source.py:730-749 | an advance has one possible outcome |
| ConsumerCursor.ProgressCommutes | vime/data/queue_data_source.py:730-749 | two advances in either order end in the same cursor, list and fetch cursor, and repeating one changes nothing |
| QueueInvariants.DeliverOk | vime/data/queue_data_source.py:1175-1187 | a returned accepted group names its own position and a closed set of sources |
| QueueInvariants.PlanOk | vime/data/queue_data_source.py:694-711 | the inputs of a planned batch are accepted and closed |
| QueueInvariants.LogTransitive | vime/data/queue_data_source.py:1175-1187 | sources in the accepted log are transitively closed and lie before their position |
| QueueInvariants.StepKeepsInv | vime/data/queue_data_source.py:694-841 | every legal durable write keeps the queue invariant |
| QueueInvariants.StepAccounts | vime/data/queue_data_source.py:730-841 | what one write makes processed is accounted for, and what it accounts for is processed |
| QueueRuns.StepKeepsInvIffLegal | vime/data/batch_builder.py:95-98 | a write keeps the invariant exactly when it does not acknowledge a finished batch |
| QueueRuns.LateAcknowledgement | vime/data/queue_data_source.py:790-827 | acknowledging after finishing would retain the batch again |
| QueueRuns.RetryUnchanged | vime/data/queue_data_source.py:790-812 | retrying ready_batch on a retained batch changes nothing |
| QueueRuns.CrashThenRetry | vime/data/queue_data_source.py:790-812 | a crash between accepting and advancing is repaired by the retry |
| QueueRuns.PlanRecords | vime/data/batch_builder.py:95-116 | a planned batch's inputs are the least set closed under sources that holds the planned positions |
| QueueRuns.PlannedIsProcessed | vime/data/queue_data_source.py:694-827 | a planned batch that becomes ready is accepted, retained and its inputs are processed; finished, it is processed itself and retained no more |
| QueueRuns.LeaseCompletes | vime/data/queue_data_source.py:546-554 | a lease that is taken and completed accepts the result at the end of the log |
| QueueRuns.LeaseEnds | vime/data/queue_data_source.py:556-589 | a returned lease may be taken again, a rejected one may not, and a retired reader's completes nothing |
| QueueRuns.LeaseStands | vime/data/queue_data_source.py:546-589 | a leased task is not handed out again, and only its holder ends the lease by a result or a rejection |
| QueueRuns.RetiredDoesNothing | vime/data/queue_data_source.py:591-598 | a retired reader gets no lease and completes none |
| QueueRuns.DeliverReturns | vime/data/queue_data_source.py:388-408 | an accepted group that is returned is a new open task whose sources are its position and its sources |
| QueueRuns.RunKeepsInv | vime/data/queue_data_source.py:694-841 | the invariant holds along every legal run |
| QueueRuns.ReachableJustified | vime/data/queue_data_source.py:751-841 | the processed positions are exactly the inputs of acknowledged or finished batches with their sources, the finished conversions' own positions, and what was disposed of with its sources; batches are exactly the acknowledged, unfinished conversions |
| QueueRuns.RunGrows | vime/data/queue_data_source.py:730-749 | nothing recorded is ever taken back |
| QueueRuns.RetiredAcceptsNothing | vime/data/queue_data_source.py:546-554 | after a reader is retired its accepted results never grow |
| ReaderRecovery.NothingLostNothingTwice | vime/data/queue_data_source.py:591-627 | over any run with any retirements no position is handed out twice, and what a retired reader had accepted is held, processed or replaced |
| ReaderRecovery.FoundIsNew | vime/rollout/fully_async_distributed.py:487-501 | recovery never returns what was handed out before |
| ReaderRecovery.DeliveredIsSettled | vime/data/queue_data_source.py:597-612 | a group returned to the queue is superseded for every later recovery |
| QueueController.RolloutQueueController.AdvanceProgress | vime/data/queue_data_source.py:730-749 | the saved consumer state advances as the plain set does |
| QueueController.RolloutQueueController.ReadyBatch | vime/data/queue_data_source.py:790-812 | accept first, advance second, with a crash allowed in between |
| QueueController.RolloutQueueController.FinishBatch | vime/data/queue_data_source.py:814-827 | an accepted conversion is processed and no longer retained; another is refused |
| QueueController.RolloutQueueController.RecordDispositions | vime/data/queue_data_source.py:829-841 | accepted positions with a reason are decided and processed; others are refused unchanged |
| QueueController.RolloutQueueController.Complete | vime/data/queue_data_source.py:546-554 | a live lease of an unretired reader adds a result; a repeated completion gets its first receipt again, any other nothing |
| QueueController.ReceiptStands | vime/data/queue_data_source.py:575-576 | a result has its receipt at once and in every later state |
| QueueController.RolloutQueueController.RecoverReaderResults | vime/data/queue_data_source.py:591-614 | the reader is fenced and exactly its results neither delivered, processed nor superseded are returned, in order |
| QueueController.RolloutQueueController.CollectSuperseded | vime/data/queue_data_source.py:601-605 | the union of all tasks' source positions |
| ObjectGraph.UnfoldDenotes | vime/data/codec.py:191-316 | what is encoded is the object as a finite tree: a container keeps its tag and its items in order, a sample its field names and values in turn, captures under their field's name and mark |
| ObjectGraph.DenotesOne | vime/data/codec.py:191-316 | an object is at most one value |
| ObjectGraph.RefusedIffBadPath | vime/data/codec.py:248-251 | a value is refused exactly when a path from it returns to itself or reaches an unsupported object |
| CodecValues.ParseSpecial | vime/data/codec.py:423-426 | the names of the special floats are read back, and no other name is |
| CodecRoundTrip.WriteTensorFits | vime/data/codec.py:141-187 | a tensor's descriptor says what the object is and where it went |
| CodecSharing.WrittenOnce | vime/data/codec.py:136-189 | one tensor record is written for each way an object outside the store is used and one for each capture in memory, and no record set is named twice |
| CodecRoundTrip.VisitEncodes | vime/data/codec.py:191-316 | the tree, blobs and dependencies encode the value |
| CodecRoundTrip.EncodesReads | vime/data/codec.py:373-460 | every descriptor resolves to its own record, and read one by one the tree is the value |
| CodecDecode.DecodeFills | vime/data/codec.py:433-449 | loading with shared tensors fills the tree from the first value met at each place |
| CodecDecode.DecodeIffAgree | vime/data/codec.py:433-449 | sharing does not show exactly when descriptors of one place agree |
| CodecDecode.DecodeUpToMarks | vime/data/codec.py:433-449 | sharing never shows in the contents of the loaded value |
| CodecAgreement.AgreeIffHandlesAgree | vime/data/codec.py:148-169 | descriptors agree exactly when all lazy handles of one stored tensor carry the same kind and mark |
| Publications.BatchEnd | vime/data/codec.py:113-120 | a batch has at least one publication and stays within the record limit |
| Publications.PublishBatch | vime/data/codec.py:121-131 | batch-relative dependencies link to the same record sets as in the whole list |
| Publications.Publish | vime/data/codec.py:109-133 | splitting into bounded batches gives the outcome of publishing the whole list at once |
| Publications.ChunkBlobs | vime/data/codec.py:320-330 | tensors go out in chunks of the record limit minus one, and every blob's place names its chunk and ordinal |
| Publications.BlobInChunk | vime/data/codec.py:323-330 | a blob's place holds that blob |
| Publications.AssembledFits | vime/data/codec.py:318-349 | every prepared publication fits a batch and depends on earlier ones only |
| SampleCodec.Prepare | vime/data/codec.py:135-349 | prepares the chunks and the record with the patched tree |
| SampleCodec.PublishedTree | vime/data/codec.py:351-371 | a published tree loads without an error and says what the value means |
| SampleCodec.RoundTrip | vime/data/codec.py:351-464 | loading what was published gives the value back up to kinds and marks of lazy tensors always, and exactly when all handles of a place agree |
| SampleCodec.MarksCanBeLost | vime/data/codec.py:433-449 | a value whose two handles disagree does not come back as it was |
| SampleCodec.ShiftedLinks | vime/data/codec.py:97-104 | moving integer dependencies by the offset keeps what they link to |
| SampleCodec.PublishValue | vime/data/codec.py:88-90 | the returned reference round-trips |
| SampleCodec.PublishObject | vime/data/codec.py:88-90 | cyclic and unsupported objects are refused with nothing written, others round-trip |
| SampleCodec.JoinPrepared | vime/data/codec.py:92-105 | joining keeps every value's publications intact and publishable |
| SampleCodec.PublishMany | vime/data/codec.py:92-107 | every value of the list round-trips under its own reference; an empty list fails |
| ColumnSelection.ColumnsContents | vime/data/codec.py:462-480 | over a memo with the right contents, selecting while reading the tree has the outcome and the contents of selecting from the columns read on their own |
| SelectionAgreement.SelectionKeepsContents | vime/data/codec.py:462-480 | for every published dictionary and selection, loading with the selection has the outcome and contents of selecting from the value and of selecting from the loaded whole; a key that is not a scalar makes every selection fail |
| SelectionAgreement.SelectionCommutes | vime/data/codec.py:462-480 | with agreeing handles in the text-keyed columns the values are the same, marks included |
| SelectionAgreement.SelectionExactIff | vime/data/codec.py:433-480 | every selection gives the very values exactly when the keys are scalars and the handles in the text-keyed columns agree |
| SelectionAgreement.MarksDependOnSelection | vime/data/codec.py:433-480 | a published dictionary one of whose columns, loaded alone, has another mark than in the whole |
| RankViews.ConvertPicks | vime/observability/rollout_data_utils.py:35-60 | converting a column and picking from it is the same in either order, for lists converted element by element and for the mask sums that become one tensor |
| RankViews.LengthsCount | vime/data/batch_builder.py:127-130 | the lengths are the list of the samples' numbers of tokens, and no other list is |
| RankViews.MemoryHolds | vime/observability/rollout_data_utils.py:35-60 | entry i of each per-sample column of a rank is that of sample partition[i], as a tensor of the column's element type where it has one and is not read lazily; the mask sums are one tensor of these; global columns and the schedule are as given |
| RankViews.ViewsKeepContents | vime/data/batch_builder.py:446-523 | for every batch of list columns and every partition, the stored view of the converted batch and the converted view picked in memory both fail or have the same contents, given lengths being those of the tokens exactly then |
| RankViews.ViewsAgree | vime/data/batch_builder.py:446-523 | with agreeing handles they are equal, marks included |
| RankViews.RowsGathered | vime/data/codec.py:478-479 | row indexing of one-dimensional tensors meets what the views need of it |
| RankViews.SelectColumnsEach | vime/data/transport.py:185-189 | selecting from a dictionary fails exactly when it fails for a column, and otherwise works key by key |
| RewardGroups.NormalizedPermuted | vime/data/batch_builder.py:243-252 | a normalised reward depends on its group's outcomes as a bag only |
| RewardGroups.CentredSumsToZero | vime/data/batch_builder.py:243-252 | the values of a prompt group's distinct rollouts sum to zero, with or without scaling |
| RewardGroups.DividesBySpread | vime/data/batch_builder.py:243-252 | a value times the spread of its group is the centred outcome, when scaling is on and the group has another outcome; otherwise it is the centred outcome |
| RewardMeaning.AdvantageMeans | vime/data/batch_builder.py:207-254 | every segment's value is its rollout's outcome against the outcomes of the distinct rollouts of its prompt group, of its block of a complete batch without groups, or of all |
| RewardGroups.GroupValueAt | vime/data/batch_builder.py:243-253 | those values are the ones the rollouts are trained with |
| RewardSegments.InsertBag | vime/data/batch_builder.py:223-234 | adding a segment leaves the distinct rollouts the same bag |
| RewardSegments.SegmentAddedAnywhere | vime/data/batch_builder.py:207-254 | with prompt groups, or one group for all, a new segment changes no other sample's value wherever it is put |
| RewardPositions.GroupsKeptIff | vime/data/batch_builder.py:236-242 | without prompt groups nobody changes group exactly when the rollout's number stays in its block |
| RewardPositions.SegmentAdded | vime/data/batch_builder.py:207-254 | adding a segment to an existing rollout changes no other sample's value, under the checkable condition in every mode |
| RewardPositions.SegmentsShare | vime/data/batch_builder.py:227-234 | all segments of a rollout get the same value |
| RewardPositions.RegroupedByOrder | vime/data/batch_builder.py:236-252 | a batch of four rollouts in which a leading segment changes another sample's value from 1 to -1 |
| RewardOutcomes.ValuesKeptIff | vime/data/batch_builder.py:207-254 | adding a segment keeps every other value for all outcomes of the rollouts exactly when groups are not positional, the rollout was met before, its number stays in its block, or groups hold one rollout |
| RewardNormalizer.CollectRollouts | vime/data/batch_builder.py:223-234 | numbers the distinct rollouts by first appearance; segments that disagree are refused, and only those |
| RewardNormalizer.GroupRollouts | vime/data/batch_builder.py:236-242 | splits the rollouts by group |
| RewardNormalizer.RewriteGroup | vime/data/batch_builder.py:244-252 | one group is centred and scaled in place, the rest is untouched |
| RewardNormalizer.NormalizeGroups | vime/data/batch_builder.py:236-252 | every rollout ends with its normalised reward |
| RewardNormalizer.PostProcessRewards | vime/data/batch_builder.py:207-254 | fails exactly on mixed groups or split outcomes, and otherwise gives every segment its rollout's value |
| RolloutLoss.NextFree | vime/data/batch_builder.py:273-274 | the next unused number |
| RolloutLoss.AssignRolloutIds | vime/data/batch_builder.py:268-276 | two samples share an id exactly when they name the same one; explicit ids stay |
| RolloutLoss.RolloutMaskSums | vime/data/batch_builder.py:316-321 | every sample carries the mask total of its whole rollout |
| RolloutLoss.TotalsOverMembers | vime/data/batch_builder.py:316-321 | a rollout's totals are the sums over the samples with its id, each once |
| RolloutLoss.DenominatorsConserve | vime/data/batch_builder.py:316-321 | over distinct rollouts the denominators add up to all mask tokens of the batch |
| RolloutLoss.SharesAreMeans | vime/backends/megatron_utils/cp_utils.py:80-91 | masked sums over those totals add up to one token-weighted mean per rollout |
| RolloutLoss.SplitLossIsMeans | vime/data/batch_builder.py:305-321 | the same for every split of the samples over ranks and micro-batches |
| ContextParallel.RanksSumResponse | vime/backends/megatron_utils/cp_utils.py:13-51 | the ranks' chunks sum every response token that follows another token exactly once |
| ContextParallel.SmallestChunks | vime/backends/megatron_utils/cp_utils.py:25 | the chunk size is the least of which two chunks for every rank hold all tokens |
| ContextParallel.OneOwner | vime/backends/megatron_utils/cp_utils.py:27-36 | every token that follows another one belongs to one rank and to no other |
| ContextParallel.RankSumsOwn | vime/backends/megatron_utils/cp_utils.py:13-51 | a rank sums the response tokens that belong to it, in a chunk counted from the front or the one as far from the back: all of them and no other |
| ContextParallel.RanksSumIsWhole | vime/backends/megatron_utils/cp_utils.py:13-139 | the ranks sum the whole response exactly when there is one rank, a prompt, no token, or nothing to count at the first token |
| MetricReduction.LocalTotals | vime/observability/train_metric_utils.py:45-50 | sums the micro-batches of a rank |
| MetricReduction.ReduceTrainStep | vime/observability/train_metric_utils.py:45-59 | the gathered sum over the batch size, or times the context-parallel size over the token count |
| MetricReduction.GatherAndReduce | vime/observability/train_metric_utils.py:99-112 | gathered sums over gathered counts, and 0 over nothing |
| MetricReduction.LogIsMean | vime/observability/train_metric_utils.py:62-83 | the rollout log reports the ranks' total over the number of rollouts for every rank count |
| MetricReduction.LayoutIndependent | vime/observability/train_metric_utils.py:53-59 | for every split and every context-parallel size the ranks' values add up to one mean per rollout over what the ranks cover, which is the whole response when no token that counts is missed |
| MetricReduction.ReductionsAgree | vime/observability/train_metric_utils.py:53-112 | train step and rollout log report the same mean for every layout and batch |
| MetricReduction.CountsInflated | vime/backends/megatron_utils/loss.py:1529 | the gathered token count is the true one once for every context-parallel rank |
| MetricReduction.ValuesGathered | vime/backends/megatron_utils/cp_utils.py:128-137 | the gathered masked sums add up over the context-parallel ranks |
| MetricReduction.PerTokenCancels | vime/observability/train_metric_utils.py:31-59 | per token the train step reports the batch's masked sum over its token count, for every layout |
| CheckpointSafety.SelectsCommitted | vime/data/checkpoint.py:191-208 | once a marker exists the selection is committed and whole exactly when the tracker exists, and is the newest committed step not beyond it, or the boundary of a pending rewind |
| CheckpointSafety.DefaultIsNewest | vime/data/checkpoint.py:191-208 | on any disk a committed default choice is the newest committed step not beyond the tracker |
| CheckpointSafety.DefaultExactly | vime/data/checkpoint.py:191-208 | on any disk the step looked at is the newest committed one when the tracker is beyond all of them, else the tracker's; it is chosen exactly when its listed model files, or any if it is uncommitted, are there; without a tracker there is no choice |
| CheckpointSafety.MarkerOk | vime/data/checkpoint.py:83-140 | a marker lists the files of its step, all written before it |
| CheckpointSafety.DiscardOk | vime/data/rewind.py:150-153 | removing later state in any order keeps the boundary whole |
| CheckpointSafety.RunOk | vime/data/checkpoint.py:54-141 | the disk invariant holds along every run of saves, crashes, restarts and rewinds |
| CheckpointSafety.ReachableSelection | vime/data/checkpoint.py:191-208 | over every such run the default selection is committed, whole and the newest not beyond the tracker, exactly when the tracker exists |
| CheckpointSafety.RewindRetried | vime/data/checkpoint.py:265-267 | interrupted anywhere, a rewind is retried at the same boundary until it is finished; nothing runs before, and no model file and nothing up to the boundary goes |
| CheckpointSafety.RestartRewinds | vime/data/checkpoint.py:265-287 | a restart that selects a checkpoint has a pending rewind to it before anything runs, one that selects nothing yet runs at once, and one that finds nothing usable changes nothing |
| CheckpointSafety.RewindFinished | vime/data/queue_data_source.py:355-379 | a finished rewind leaves nothing later and is selected again |
| CheckpointSafety.FirstCommitWindow | vime/data/checkpoint.py:127-141 | a run whose only checkpoint cannot be selected |
| CheckpointDirectory.SaveIsRun | vime/data/checkpoint.py:54-72 | every prefix of a save's writes, the whole save included, is a run of the machine |
| CheckpointDirectory.SavedIsSelected | vime/data/checkpoint.py:54-208 | a save that runs to its end is committed with all its files and is what a restart selects |
| CheckpointDirectory.Directory.SaveCheckpoint | vime/data/checkpoint.py:54-72 | writes in order up to the cut; a committed step is refused untouched |
| CheckpointDirectory.Directory.CommitCheckpoint | vime/data/checkpoint.py:83-141 | the marker with the files present, then the tracker |
| CheckpointDirectory.Directory.DiscardFuture | vime/data/rewind.py:124-158 | removes the candidates in order up to the cut; no model file and nothing up to the boundary goes; when done nothing later is left and the tracker names the boundary |
| DetachedExec.SpawnsAtMostOnce | vime/agent/sandbox.py:146-155 | under any pattern of lost answers and retries the command is spawned at most once, and once if polling begins |
| DetachedExec.ReturnsOwnCode | vime/agent/sandbox.py:124-162 | with no older command of the tag running, a returned code was written by the call's own command |
| DetachedExec.OwnCodeIff | vime/agent/sandbox.py:99-162 | whatever happens a call returns only its own command's code exactly when no command of the tag is running at its start |
| DetachedExec.OwnAfterClearing | vime/agent/sandbox.py:132-145 | after the clearing the same holds exactly when no older command runs or has marked the file |
| DetachedExec.OldCodeReturned | vime/agent/sandbox.py:132-138 | an older command that ends after the clearing leaves its code for the newer call |
| SandboxClient.Client.RpcRetry | vime/agent/sandbox.py:254-288 | succeeds exactly when within the retries an attempt is answered after transient failures only, and raises otherwise; the box is what the attempts made leave behind |
| SandboxClient.Client.AwaitDoneMarker | vime/agent/sandbox.py:79-96 | returns the first mark that a poll sees, raises with a poll that raises, and gives the time-budget value when no poll saw a mark |
| SandboxClient.OutcomeUnique | vime/agent/sandbox.py:79-96 | the polls of a schedule have only one outcome |
| SandboxClient.Client.ExecAndWait | vime/agent/sandbox.py:99-162 | raises if one of the three requests gets no answer; otherwise returns what all the polls of the box find: the first mark's code, a raise, or the time-budget value; at most one spawn, and a code is the command's own if nothing older ran |

## Left out

- The straw library (coordinator, journal, store, garbage collection): its log is append-only with dense positions, task submission with producer state is atomic, and published record sets are numbered in order.
- File locks, fsync, Ray actors, RPC encoding, heartbeats, timeouts and backoff: they do not change which durable writes happen.
- Floating-point rounding and tensor dtypes: rewards, losses and metrics are reals, and the standard deviation is any non-negative function of a group's outcomes.
- Trajectory metadata (finish reason, weight versions, speculative-decoding and prefix-cache counters, tool and ill-formed flags): copied or summed along the way.
- Negative values of `max_sample_tokens`: the model's cap is a natural number.
- Validation of routing and sampler captures, and the conversion of capture fields given as Python lists: a capture is taken as the array it converts to, and its outcome of validation as given.
- PNG, base64 and JSON text: taken as exact encodings of the tagged tree.
- ObjectGraph.UnfoldDenotes: a rollout reference met again inside itself is refused at the reference, where the source refuses at the container it passes through.
- SelectionAgreement.SelectionCommutes: one-way for one selection; the condition is exact over all selections (`SelectionAgreement.SelectionExactIff`).
- SelectionAgreement.SelectionKeepsContents: row indexing of a column that is not a list is an arbitrary function that sees contents only.
- RankViews.ViewsKeepContents: values of both views are compared by what they mean once loaded, so numpy scalars count as their Python values; how the tensor library reads a value as a tensor is an arbitrary function; columns that are not lists, which only a custom conversion can give, are excluded.
- RewardPositions.SegmentAdded: sufficient for one assignment of outcomes, under which values can coincide after a regrouping; exact over all of them (`RewardOutcomes.ValuesKeptIff`).
- MetricReduction.ReductionsAgree: stated for one training step per rollout, as the source promises it.
- SampleBuilder.SampleBuilder.ToSample: requires a cap that leaves the leading prompt whole; below that the source slices captures by a negative length, and the model states only the length and the mask (`SampleEmission.CapExact`).
- TrajectoryManager.TrajectoryManager.ChainToSamples: the same requirement, for every builder that is emitted.
- TrajectoryManager.TrajectoryManager.GetTrajectory: the same requirement, for every builder that is emitted.
- DetachedExec.SpawnsAtMostOnce: the spawn request is one step; a request cut off between making the lock directory and starting the command would leave the lock without a command.
- Custom reward and conversion hooks, dynamic filters, partial continuations and the restoring of pending tasks: not modelled; a yielded partial keeps its source positions and is a returned lease here.
- Selection of an explicit checkpoint step or of another directory, and rollout state lost from a committed checkpoint: only the default selection of a run restarted in place is followed over runs.
- Output files of detached commands, and requests that are executed after a later request was answered: every attempt is over before the next one begins.
- Models, optimizers, engines, schedulers, examples and tools: outside the data path.
