# private-gpt: a verified model of its protocols and transformations

This project models the parts of private-gpt that keep state across interleaved steps, and the list, byte
and text transformations whose result must agree with a simple description. Each module models one source
component. Redis is a shared state: every script, WATCH/EXEC or single command is one atomic step, and between
two steps any other actor may step. Classes have the fields and methods of the source's classes, and each
method is tied to a function of the old state; the main results are about those functions, over every input
or every run.

| modules | what they are about |
|---|---|
| `ArqLeases`, `ArqStore`, `ArqProtocol`, `ArqHistory`, `ArqSafety`, `ArqTakeover`, `ArqWindows`, `ArqWorker` | job claims, leases, recovery of dead owners' locks, and the health check |
| `CheckpointStore`, `CheckpointProtocol` | parallel tool callbacks of a resumable chat lead to one resume |
| `EnvironmentManager`, `EnvironmentOutcomes`, `EnvironmentCompletion`, `EnvironmentSandboxes`, `SandboxFates`, `EnvironmentTables`, `SessionLock`, `VolumeDedupe` | acquire, release and reaper of sandbox environments, their locks and mounts |
| `DropSpans`, `ExporterView`, `TraceTags`, `JsonlRotation`, `HttpCapture` | the trace pipeline, its rotating log, and the capture of streams |
| `ToolReorder`, `SystemMessages`, `InlineTexts`, `FoldedTexts`, `MessageMerge` | normalising a conversation |
| `Utf8`, `OutputTruncation`, `RepeatedLines`, `PathLocator`, `PathWords`, `MemoryCache`, `ExporterDiscovery`, `SemaphoreManager` | fast forms of simple things |
| `Wrappers`, `Sequences`, `StringOrder` | options, results, and facts on sequences and strings |

`dafny verify dfyconfig.toml` checks the whole project.

## What turned out otherwise

- Two workers can run one job although neither lost its lease after claiming it: the lease may lapse between the
  renewal and the claim's EXEC (`ArqTakeover.LeaseMayBeGoneBeforeTheClaim`). `ArqSafety` therefore speaks of a lease
  missing at the claim or lost later, or a lock that timed out, and `RunnerCanBeDoubled` shows that a runner can be
  doubled while the job is not locked, or is locked by the runner itself without a lease.
- With retries or ids queued again the two runners may both have kept their leases: a third that lost its own deletes
  the lock of one of them when it finishes (`ArqTakeover.RetryDoublesWithoutOwnGap`).
  `ArqSafety.DoubleRunNeedsOwnLoss` names this as the only further way.
- A save does not always lead to a `record_result` that returns the full set; `CheckpointProtocol.FullSetIffStillComing`
  is the exact condition. When it fails, the saver's own check resumes.
- The one resume after a save need not be for the saved checkpoint: a check under way for an older one may take the
  claim. `CheckpointProtocol.ResumesTheSavedIffNoStaleCheck` is the exact condition.
- The local creation lock does not exclude two acquires once a release or an expiring reap has discarded it
  (`EnvironmentManager.DiscardBreaksTheCreationLock`); the session lock does.
- A provider that can restore may hand out a sandbox between its reap, or its failed set-up, and the spawned kill, which
  runs outside the session lock; then the active sandbox is killed (`EnvironmentSandboxes.RestoredIsKilledIffDoomed`).
- `_reorder_tool_messages` duplicates tool messages when call ids are shared or a "tldr" tool message precedes its caller;
  `ToolReorder.IdempotentIffTidy` is the exact condition.
- The fold of inline system texts drops them all when the message has no tool result, which its only caller excludes.
- A task function that raises CancelledError leaves its caller waiting for ever and ends its worker
  (`SemaphoreManager.KilledIsLost`, `KilledLeavesTheCallerWaiting`).
- Between leaving the queue and its function's start an entry is in a worker's hands: a more urgent request that comes
  then waits, and a cancelled one may still be run (`SemaphoreManager.HeldOneBeginsFirst`, `CancelledMayBegin`).
- A count line put out for repeated lines looks like any line, so that two texts may have the same output
  (`RepeatedLines.SharedIffCollapsed`, `CountLineCollides`).
- "Every span of that trace ending later in this process" carries a tag only while the trace stays open: once no span of it
  is open, its tags are forgotten (`TraceTags.IdleTraceForgetsItsTags`).
- With lower-case letters in a variable name, a shorter path can sort after a longer one and silently replace what was set
  below it (`ExporterDiscovery.LowerCaseReplacesSilently`); upper-case names cannot.

## Model

| member | source | states |
|---|---|---|
| `ArqLeases.DecodeExactlyOwnStamp` | `private_gpt/arq/leases.py:37-48` | A lock value decodes to a worker exactly when it is that worker's own stamp and the worker has a name; everything else is unowned |
| `ArqLeases.StampsAreInjective` | `private_gpt/arq/leases.py:37-38` | Two workers never write the same stamp |
| `ArqProtocol.PermitsOverRuns` | `private_gpt/arq/liveness.py:115-153` | Over every run, permits and running jobs of a worker balance and no worker runs more than `max_jobs` jobs |
| `ArqProtocol.NotBeforeItsTime` | `private_gpt/arq/liveness.py:126-134` | Over every interleaving a worker runs a job only after it found it queued with a score that is not zero and not later than the time it looked |
| `ArqProtocol.UnwrittenClaimSucceeds` | `private_gpt/arq/liveness.py:115-153` | Whatever happens between WATCH and EXEC of a claim, it takes the job when nobody wrote the job's lock in between |
| `ArqSafety.LiveLockSurvivesRecovery` | `private_gpt/arq/liveness.py:30-43` | No release script removes the lock of a worker whose lease is alive, whatever the recovering worker read before |
| `ArqSafety.ChangedLockSurvivesRecovery` | `private_gpt/arq/liveness.py:30-43` | A release script removes a lock only as it was read: one retaken since by any owner survives, with or without a lease |
| `ArqSafety.DoubleRunNeedsDisturbance` | `private_gpt/arq/liveness.py:97-153` | Over every interleaving, with retries and ids queued again: two workers run one job at once only if at some time a worker running that job had no lease or outlived its lock |
| `ArqSafety.DoubleRunNeedsOwnLoss` | `private_gpt/arq/liveness.py:97-153` | Over every interleaving, with retries and ids queued again: of two workers that run one job at once, one had no lease when it claimed, lost it later, ran past the lock's expiry, or had its lock deleted by another runner that finished |
| `ArqSafety.DisplacerHadLostItsHold` | `private_gpt/arq/liveness.py:97-153` | Whoever deletes another runner's lock by finishing had lost its own hold on the job before, or had been displaced itself |
| `ArqSafety.DoubleRunNeedsOwnGap` | `private_gpt/arq/liveness.py:97-153` | When each id is queued once and not retried, it is one of the two runners itself that had no lease when it claimed, lost it later, or ran past the lock's expiry |
| `ArqHistory.HistoryIsExact` | `private_gpt/arq/liveness.py:97-153` | What these results call a loss, over every run and told by its events: it is on record exactly when the worker started the job without a lease, lost the lease, outlived the lock, or had it deleted by another's finish, and has not started the job anew since |
| `ArqHistory.DisturbedIff` | `private_gpt/arq/liveness.py:97-153` | A job is on record as disturbed exactly when one of the first three happened to some worker |
| `ArqTakeover.ClaimSucceeds` | `private_gpt/arq/liveness.py:115-153` | The commands of one uninterrupted claim take a free due job |
| `ArqTakeover.RecoverySucceeds` | `private_gpt/arq/liveness.py:169-251` | An uninterrupted pass of another worker frees the lock of an owner without a lease |
| `ArqTakeover.QueuedJobCanBeRun` | `private_gpt/arq/liveness.py:115-153` | A worker with a free slot can come to run any free job of the queue, at once or when it is due |
| `ArqTakeover.CrashedJobIsTakenOver` | `private_gpt/arq/liveness.py:97-251` | What a crashed worker ran, any other worker with a free slot can come to run once the lease is gone |
| `ArqTakeover.LegacyLockComesAndGoes` | `private_gpt/arq/liveness.py:233-251` | A legacy worker's lock goes when it finishes, or with a pass once it is dead, and stays through a pass while it lives |
| `ArqTakeover.RunnerCanBeDoubled` | `private_gpt/arq/liveness.py:97-251` | Conversely, from any state in which a worker runs a due job that is not locked, or locked by itself without a lease, any other worker with a free slot can come to run it too |
| `ArqTakeover.LeaseMayBeGoneBeforeTheClaim` | `private_gpt/arq/liveness.py:304-309` | A history from an initial state in which both run one job although neither lost its lease after claiming: the lease went between renewal and EXEC |
| `ArqTakeover.RetryDoublesWithoutOwnGap` | `private_gpt/arq/liveness.py:97-251` | A history from an initial state in which two workers run one job and neither has a gap: a third, which lost its lease, ended with a retry and deleted the lock of one of them |
| `ArqWorker.WindowsNest` | `private_gpt/arq/healthcheck.py:126-150` | A window with an earlier cutoff and a smaller limit lies inside the larger window |
| `ArqWindows.WindowIsFirst` | `private_gpt/arq/liveness.py:175-181` | A window holds at most its limit, and exactly that many if a due job is left out; each job in it has a lower score than every due job left out, or the same and the id that comes first |
| `ArqWorker.HeartbeatWorker.StartJobs` | `private_gpt/arq/liveness.py:97-153` | The claim loop, alone: exactly claimable jobs of the batch are claimed and stamped, and one is passed over only when the worker is full, by earlier ones |
| `ArqWorker.HeartbeatWorker.ClaimJob` | `private_gpt/arq/liveness.py:115-153` | One round of the loop: the job is claimed if it is due, unlocked and there is room, otherwise counter and permit are given back |
| `ArqWorker.HeartbeatWorker.ReadLocks` | `private_gpt/arq/liveness.py:185-203` | The first half of the pass lists every lock of the window with its owner, and the unowned ones apart |
| `ArqWorker.HeartbeatWorker.ReleaseOwned` | `private_gpt/arq/liveness.py:205-231` | Deletes exactly the listed locks whose owner has no lease, and counts them |
| `ArqWorker.HeartbeatWorker.ReleaseLegacy` | `private_gpt/arq/liveness.py:233-251` | Deletes exactly the listed unowned locks when no legacy worker is alive, and counts them |
| `ArqWorker.HeartbeatWorker.RecoverStaleInProgressJobs` | `private_gpt/arq/liveness.py:169-251` | A pass deletes exactly the reclaimable locks of its window and returns their number; within two seconds of the last one it does nothing |
| `ArqWorker.HeartbeatWorker.PollIteration` | `private_gpt/arq/liveness.py:304-309` | Renewing and then recovering: within two seconds of the last pass locks stay as they are, otherwise no due job of the window is left locked by a worker without a lease |
| `ArqWorker.StaleAfterPass` | `private_gpt/arq/liveness.py:169-251` | Exactly which due jobs are stale after a pass: those it did not read, and its own if it has no lease |
| `ArqWorker.InspectDueJobs` | `private_gpt/arq/healthcheck.py:126-176` | The counting loops return the numbers of free, stale and unowned due jobs of the window |
| `ArqWorker.RecoverThenInspect` | `private_gpt/arq/healthcheck.py:126-176` | A health check over a window inside the one just recovered reports no stale job, and no unowned one when no legacy worker is alive |
| `CheckpointStore.RedisChatCheckpointStore.Save` | `private_gpt/arq/chat/iteration_state.py:61-78` | Saves unless terminal, with the resumed mark gone and all else kept |
| `CheckpointStore.RedisChatCheckpointStore.RecordOnly` | `private_gpt/arq/chat/iteration_state.py:84-111` | The script keeps the first result of a tool and records nothing on a terminal execution |
| `CheckpointStore.RedisChatCheckpointStore.RecordResult` | `private_gpt/arq/chat/iteration_state.py:84-119` | With nobody in between, the full set is returned exactly by the call that completes the pending tools |
| `CheckpointStore.RedisChatCheckpointStore.ClaimResume` | `private_gpt/arq/chat/iteration_state.py:128-133` | Claims exactly when nobody has |
| `CheckpointStore.RedisChatCheckpointStore.ClaimAction` | `private_gpt/arq/chat/iteration_state.py:135-139` | Claims exactly when the action was not claimed before |
| `CheckpointStore.RedisChatCheckpointStore.MarkTerminal` | `private_gpt/arq/chat/iteration_state.py:141-149` | Sets the status only once |
| `CheckpointStore.RedisChatCheckpointStore.ReleaseResume` | `private_gpt/arq/chat/iteration_state.py:151-152` | Gives the resume claim back and changes nothing else |
| `CheckpointStore.RedisChatCheckpointStore.Cleanup` | `private_gpt/arq/chat/iteration_state.py:154-159` | Removes checkpoint, results and the resumed mark; the terminal mark and the claimed actions stay |
| `CheckpointProtocol.AtMostOneClaimPerReset` | `private_gpt/arq/chat/iteration_state.py:128-133` | Over every interleaving at most one claim succeeds between two deletions of the resumed mark |
| `CheckpointProtocol.ActionsClaimedOnce` | `private_gpt/arq/chat/iteration_state.py:135-139` | Over every interleaving each action that is tried is claimed with success once, and no other is |
| `CheckpointProtocol.FirstResultStays` | `private_gpt/arq/chat/iteration_state.py:84-110` | A tool's first result is never overwritten until a cleanup |
| `CheckpointProtocol.CleanupForgets` | `private_gpt/arq/chat/iteration_state.py:154-159` | After a cleanup the checkpoint and every result of a later run were saved or recorded in that run, by a call with that tool and response |
| `CheckpointProtocol.TerminalIsTheFirstMark` | `private_gpt/arq/chat/iteration_state.py:141-149` | An execution is terminal from the first `mark_terminal` of a run on, with its status |
| `CheckpointProtocol.TerminalIsFinal` | `private_gpt/arq/chat/iteration_state.py:141-149` | After `mark_terminal` no save or result gets in and the status stays |
| `CheckpointProtocol.FullSetIffStillComing` | `private_gpt/arq/chat/iteration_state.py:84-126` | The exact condition: after a save some call returns every pending result, however the calls interleave, exactly when at the save a result is missing, or a call of a pending tool has its load to come, holds an expectation the results meet, or has returned everything |
| `CheckpointProtocol.SomeCallReturnsTheFullSet` | `private_gpt/arq/chat/iteration_state.py:84-126` | Under that condition: once all pending tools are recorded and no call is half-way, some call returned every pending result |
| `CheckpointProtocol.NoCallReturnsTheFullSet` | `private_gpt/arq/chat/iteration_state.py:84-126` | With all results in and no call of a pending tool on its way at the save, no call returns the full set in any run |
| `CheckpointProtocol.ResultsBeforeTheSaveReturnNothing` | `private_gpt/arq/chat/iteration_state.py:84-126` | It happens, from a fresh execution: the result and its load precede the save, and in no run after it does a call return the full set |
| `CheckpointProtocol.ExactlyOneResume` | `private_gpt/components/engines/chat/resumable_runner.py:339-355` | After a save, once every pending tool is recorded and all calls are over, exactly one resume was claimed |
| `CheckpointProtocol.ResumesTheSavedIffNoStaleCheck` | `private_gpt/components/engines/chat/resumable_runner.py:339-355` | The exact condition: however the calls interleave, that resume is for the saved checkpoint exactly when at the save no check was under way that had loaded another one with something pending |
| `CheckpointProtocol.StaleCheckTakesTheClaim` | `private_gpt/components/engines/chat/resumable_runner.py:339-355` | Any check that had loaded another checkpoint with something pending, or was ready for it, can take the claim, whether the results come before the save or after it |
| `CheckpointProtocol.StaleCheckHappens` | `private_gpt/components/engines/chat/resumable_runner.py:339-355` | And a run from a fresh execution leads there |
| `EnvironmentManager.CreateNeverOverwrites` | `private_gpt/components/environment/manager.py:73-127` | Over every interleaving of acquire, release and reaper, `_create` stores only when nothing is active |
| `EnvironmentOutcomes.AcquireHandsOut` | `private_gpt/components/environment/manager.py:88-127` | By the history of any run: a finished acquire hands out the active environment it read, if it reused it unchanged; or what was active right after it stored, never one that it read as changed; or nothing, exactly when its creation failed |
| `EnvironmentCompletion.EveryRunCanFinish` | `private_gpt/components/environment/manager.py:73-154` | No interleaving gets stuck: from every reachable state the acquires, releases and reaps under way can all come to an end without a further request, and then every lock is free |
| `EnvironmentCompletion.TakenByAnother` | `private_gpt/components/environment/distributed.py:152-206` | In every run, from where another process takes the session until it drops it, no task is inside |
| `EnvironmentManager.SessionsAreExclusive` | `private_gpt/components/environment/distributed.py:152-206` | At most one task is inside the session lock |
| `EnvironmentManager.NoEnvironmentIsLost` | `private_gpt/components/environment/manager.py:129-154` | Every environment ever created is active, killed, owed a kill by a task, or was skipped because a newer one was active |
| `EnvironmentManager.ActiveIsNeverKilled` | `private_gpt/components/environment/manager.py:129-154` | In every run no kill has been issued for the active environment |
| `EnvironmentSandboxes.ActiveSandboxIsNotKilled` | `private_gpt/components/environment/manager.py:208-258` | With sandboxes that the provider may hand out again: in every run in which none is restored whose spawned kill is still to run, no kill is issued for the active environment's sandbox |
| `EnvironmentSandboxes.RestoredIsKilledIffDoomed` | `private_gpt/components/environment/manager.py:208-258` | The exact condition: after a restore an active sandbox can be killed, with no other such restore, exactly when a spawned kill of the restored one, from a reap or a failed set-up, was still to run |
| `EnvironmentSandboxes.DoomedRestoreHappens` | `private_gpt/components/environment/manager.py:353-376` | A run from the start in which the provider may hand out a sandbox between its reap and its kill |
| `SandboxFates.NoSandboxIsLost` | `private_gpt/components/environment/manager.py:208-258` | In every run each sandbox made is in a task's hand, or its set-up failed and it is or will be killed, or it is that of an environment that is active, killed, owed a kill or skipped for a newer one |
| `SandboxFates.ReplacedIsFresh` | `private_gpt/components/environment/manager.py:100-126` | In every run an acquire that replaced its environment stores one whose sandbox did not exist when it did so |
| `EnvironmentManager.CreationLockExcludesUntilDiscarded` | `private_gpt/components/environment/manager.py:298-304` | The creation lock alone excludes until a release or an expiring reap discards it |
| `EnvironmentManager.DiscardBreaksTheCreationLock` | `private_gpt/components/environment/manager.py:129-137` | From any reachable state in which an acquire is past its creation lock, a release or an expiring reap lets another one past a new lock beside it |
| `EnvironmentManager.ReleaseBreaksTheCreationLock` | `private_gpt/components/environment/manager.py:129-137` | A run from the start in which one release does so |
| `EnvironmentTables.EnvironmentManager.Release` | `private_gpt/components/environment/manager.py:129-137` | Takes the entry and the creation lock of that session only, as the state machine's release step |
| `EnvironmentTables.EnvironmentManager.Store` | `private_gpt/components/environment/manager.py:257-258` | Stores the environment of that session only, as the state machine's create step |
| `EnvironmentTables.EnvironmentManager.ReleaseDecides` | `private_gpt/components/environment/manager.py:143-154` | Kills exactly when no newer environment is active, as the state machine decides |
| `EnvironmentTables.EnvironmentManager.ReapOnce` | `private_gpt/components/environment/manager.py:353-376` | An uninterrupted pass removes exactly the sessions idle on both clocks, with their creation locks, and spawns one kill for each in order |
| `SessionLock.FallbackLocks.TryAcquire` | `private_gpt/components/environment/distributed.py:132-143` | One attempt takes the key exactly when it is free |
| `SessionLock.FallbackLocks.Release` | `private_gpt/components/environment/distributed.py:145-149` | Only the owner's entry is removed |
| `SessionLock.LockExcludes` | `private_gpt/components/environment/distributed.py:132-170` | Over every run of attempts and leaves, at most one task holds a session although all tasks of a process present one owner, and a key is locked only while held |
| `SessionLock.HandedOn` | `private_gpt/components/environment/distributed.py:132-170` | After any run, once the holder of a session leaves, the next attempt of another task gets it |
| `VolumeDedupe.DedupeVolumes` | `private_gpt/components/environment/manager.py:397-438` | Fails exactly when two bind volumes claim one target with different sources or access; otherwise keeps the first of each target in order, renamed only as far as names clash, with all names distinct |
| `VolumeDedupe.FreeName` | `private_gpt/components/environment/manager.py:431-435` | The rename loop ends, with the fewest suffixes that make the name free |
| `VolumeDedupe.NameIsKeptWhenFree` | `private_gpt/components/environment/manager.py:430-437` | A volume keeps its own name, or gets the default one if it has none, when no volume before it has that name |
| `VolumeDedupe.SamePlaceIffSameButSlashes` | `private_gpt/components/environment/manager.py:413` | Two mounts claim one place exactly when their targets are the same but for slashes at the end |
| `VolumeDedupe.FirstsAreDistinct` | `private_gpt/components/environment/manager.py:408-427` | The volumes kept are bind volumes of the list at distinct targets |
| `VolumeDedupe.PlaceIsKept` | `private_gpt/components/environment/manager.py:408-427` | The target of every bind volume is kept |
| `VolumeDedupe.KeptIsSame` | `private_gpt/components/environment/manager.py:413-427` | Without ambiguity the volume kept for a target is every bind volume's own bind |
| `DropSpans.DropSpansProcessor.ResolveParent` | `private_gpt/observability/processors.py:172-175` | The loop ends and gives the parent after re-attachment |
| `DropSpans.DropSpansProcessor.Start` | `private_gpt/observability/processors.py:165-170` | Records the re-attached parent of a dropped span, and nothing for others |
| `DropSpans.DropSpansProcessor.End` | `private_gpt/observability/processors.py:177-194` | Forgets dropped spans, withholds idle ones, exports the others re-attached |
| `DropSpans.ExportedSpansKeepTheirAncestor` | `private_gpt/observability/processors.py:129-194` | Over every run with children ending first: each exported span hangs from its nearest ancestor not dropped by name, which is exported too once ended, idle condensation checks excepted; recorded parents never form chains |
| `DropSpans.ExactOverRuns` | `private_gpt/observability/processors.py:153-194` | In those runs an ended span is exported exactly once when its name is not dropped, it was no idle condensation check, and it was not idle without exported children; otherwise not at all |
| `DropSpans.EveryRunCanBeClosed` | `private_gpt/observability/processors.py:153-194` | Every run can be brought to its end; then each span that started in it has ended and was exported exactly once or not at all, as above |
| `DropSpans.ResolveAlwaysEnds` | `private_gpt/observability/processors.py:165-175` | Over every run in which an id starts once and after no span that names it as parent, whether or not children outlive their parents, no recorded parent is recorded as dropped, so the loop of `_resolve` ends |
| `ExporterView.ExporterViewProcessor.End` | `private_gpt/observability/processors.py:516-546` | The method computes the step of the model, exports in order included |
| `ExporterView.ExporterViewProcessor.Shutdown` | `private_gpt/observability/processors.py:548-553` | Everything still held is exported |
| `ExporterView.DeliveredExactlyOnce` | `private_gpt/observability/processors.py:503-553` | After any run received = exported + held, and after shutdown every span was exported exactly once |
| `ExporterView.TurnThenRoot` | `private_gpt/observability/processors.py:490-546` | A turn that ends before its root: the root leaves, whatever ends in between, as itself but for its attributes: those of the six keys the turn has are the turn's, a non-empty message becomes the output as JSON, the old output is kept as response body, and all others are its own |
| `ExporterView.RootThenTurn` | `private_gpt/observability/processors.py:490-546` | A root that ends before its turn leaves with the same attributes, if it is no error and its hold has not expired |
| `TraceTags.TraceTagsProcessor.OnStart` | `private_gpt/observability/processors.py:368-374` | Counts the span and adds its tags |
| `TraceTags.TraceTagsProcessor.OnEnd` | `private_gpt/observability/processors.py:376-395` | Exports with the tags of the trace, and forgets the trace when no span is open |
| `TraceTags.EntryIsExact` | `private_gpt/observability/processors.py:368-386` | A trace has an entry exactly while spans of it are open; the entry counts them and holds the tags matched since the trace was last idle |
| `TraceTags.CarriedIffTagged` | `private_gpt/observability/processors.py:376-395` | An ending span carries exactly its own tags and those some span of its trace matched since the trace was last idle here |
| `TraceTags.TagReachesLaterEnds` | `private_gpt/observability/processors.py:332-342` | A tag once matched is on every span of the trace that ends while the trace stays open |
| `TraceTags.IdleTraceForgetsItsTags` | `private_gpt/observability/processors.py:332-342` | Two spans of one trace, one after the other: the second ends without the tag that the first matched |
| `Utf8.RoundTrip` | `private_gpt/components/code_execution/output_cleaning.py:403-409` | Decoding the UTF-8 bytes of a text (section 3 of RFC 3629) gives the text |
| `Utf8.DecodePrefix` | `private_gpt/components/code_execution/output_cleaning.py:408` | Decoding the first bytes of a text, errors ignored, gives its longest prefix that fits |
| `Utf8.DecodeSuffix` | `private_gpt/components/code_execution/output_cleaning.py:409` | Decoding the last bytes gives the characters that lie wholly within them |
| `Utf8.PrefixFits` | `private_gpt/components/code_execution/output_cleaning.py:408` | That prefix is within the budget |
| `Utf8.PrefixIsLongest` | `private_gpt/components/code_execution/output_cleaning.py:408` | No longer prefix is |
| `Utf8.SuffixFits` | `private_gpt/components/code_execution/output_cleaning.py:409` | That suffix is within the budget |
| `Utf8.SuffixIsLongest` | `private_gpt/components/code_execution/output_cleaning.py:409` | No longer suffix is |
| `OutputTruncation.TruncateHeadTail` | `private_gpt/components/code_execution/output_cleaning.py:403-414` | The slices, decodings and line snaps compute the two cut points of the text |
| `OutputTruncation.HeadShare` | `private_gpt/components/code_execution/output_cleaning.py:406` | The head's share is the whole number at or below `max_bytes * head_ratio` |
| `OutputTruncation.TruncatedEndsFit` | `private_gpt/components/code_execution/output_cleaning.py:403-414` | Head and tail after both snaps each fit in their share of `max_bytes` |
| `OutputTruncation.TruncatedPiecesRejoin` | `private_gpt/components/code_execution/output_cleaning.py:403-414` | head + omitted + tail is the text, and something is omitted: the ends never overlap |
| `OutputTruncation.TruncateLines` | `private_gpt/components/code_execution/output_cleaning.py:422-441` | Keeps the most whole leading lines that fit, at least one, and the kept text is within the budget |
| `OutputTruncation.SplitLinesAre` | `private_gpt/components/code_execution/output_cleaning.py:429-432` | The lines are the text in order: no break inside one, one break after each unless the text ends there with a line that is not empty, and a carriage return and newline are one break |
| `OutputTruncation.JoinedLinesSplit` | `private_gpt/components/code_execution/output_cleaning.py:429-437` | Lines joined by newlines are split again, unless the last one is empty |
| `OutputTruncation.ApplyBackspaces` | `private_gpt/components/code_execution/output_cleaning.py:123-130` | The loop renders the text character by character |
| `OutputTruncation.LinesRenderApart` | `private_gpt/components/code_execution/output_cleaning.py:123-130` | A backspace never reaches into the line above |
| `OutputTruncation.TakenBackLeavesNoTrace` | `private_gpt/components/code_execution/output_cleaning.py:107-130` | Characters typed and taken back leave the text as it was |
| `RepeatedLines.CollapseRepeatedLines` | `private_gpt/components/code_execution/output_cleaning.py:308-324` | The nested loops compute the collapsed text, run by run |
| `RepeatedLines.RunInPlace` | `private_gpt/components/code_execution/output_cleaning.py:311-323` | Each maximal run is put out in its place, as a line and its count when it is long enough and not blank, line by line when not |
| `RepeatedLines.SharedIffCollapsed` | `private_gpt/components/code_execution/output_cleaning.py:308-324` | Another text has the output of a text without count lines exactly when that output differs from the text and `min_run` is at least 2 |
| `RepeatedLines.CollapseIsInjective` | `private_gpt/components/code_execution/output_cleaning.py:308-324` | Two texts without count lines have different outputs |
| `RepeatedLines.CollapseIsInjectiveWhenAllCount` | `private_gpt/components/code_execution/output_cleaning.py:308-324` | With `min_run` at most 1 any two texts have different outputs |
| `RepeatedLines.CollapseTwice` | `private_gpt/components/code_execution/output_cleaning.py:308-324` | With `min_run` at least 2 the output of a text without count lines collapses to itself |
| `RepeatedLines.RestoredIffNoCountLine` | `private_gpt/components/code_execution/output_cleaning.py:308-324` | A reader who takes every line of the form of a count for one gets the text back exactly when it has no such line |
| `RepeatedLines.CountLineCollides` | `private_gpt/components/code_execution/output_cleaning.py:317-320` | Two texts with the same output: the second line of one is the count line the other gets |
| `MemoryCache.MemoryCache.Get` | `private_gpt/components/cache/cache_service.py:42-53` | Returns the value unless missing or expired, and moves or removes the entry |
| `MemoryCache.MemoryCache.Set` | `private_gpt/components/cache/cache_service.py:55-68` | Puts the entry last and evicts the oldest ones over the limit |
| `MemoryCache.MemoryCache.Delete` | `private_gpt/components/cache/cache_service.py:70-72` | Removes the entry |
| `MemoryCache.CacheRefinesMap` | `private_gpt/components/cache/cache_service.py:42-72` | After any operations: `get` returns nothing but the last value set, not expired; it returns it if fewer than `max_entries` other keys were used since; never more than `max_entries` are held |
| `MemoryCache.SetIsFound` | `private_gpt/components/cache/cache_service.py:42-72` | After any operations a value set is found again, as long as it lasts and is neither set anew nor deleted, when fewer than `max_entries` other keys are got or set in between |
| `PathLocator.PathCandidates` | `private_gpt/components/code_execution/sandbox_session.py:81-102` | The recursive search lists the candidates of the matches in order |
| `PathWords.CandidatesExact` | `private_gpt/components/code_execution/sandbox_session.py:81-102` | Exactly the accented, path-like words of the command are candidates, each at its place: of every quoted string on one line, of every maximal run of plain characters behind a leading `NAME=` or `--flag=`, and again inside each accented quoted string |
| `PathWords.MeetsOnce` | `private_gpt/components/code_execution/sandbox_session.py:72-78` | Which quoted strings and runs these are is determined by the text alone |
| `PathLocator.CandidatesPlaced` | `private_gpt/components/code_execution/sandbox_session.py:81-102` | Every candidate is exactly the text at its place, and each later one lies inside it or after it |
| `PathLocator.ChosenOrdered` | `private_gpt/components/code_execution/sandbox_session.py:177-189` | The chosen ranges run from left to right without touching |
| `PathLocator.ChosenCover` | `private_gpt/components/code_execution/sandbox_session.py:177-189` | Every changed candidate lies inside a chosen range |
| `PathLocator.SpliceAll` | `private_gpt/components/code_execution/sandbox_session.py:190-191` | Edits made one by one from the right equal one substitution of all ranges at once |
| `PathLocator.LocatePaths` | `private_gpt/components/code_execution/sandbox_session.py:152-192` | The located command is that substitution of the chosen candidates among the first sixteen |
| `PathLocator.LocatedRespellsOutermost` | `private_gpt/components/code_execution/sandbox_session.py:152-192` | Of the candidates looked up, exactly the outermost changed ones are replaced |
| `ToolReorder.ReorderToolMessages` | `private_gpt/chat/input_models.py:731-776` | The nested loops with their used indices compute the walk over the messages |
| `ToolReorder.NonToolKept` | `private_gpt/chat/input_models.py:731-776` | All messages that are no tool messages stay, in order |
| `ToolReorder.ResponsesFollowTheirCall` | `private_gpt/chat/input_models.py:746-767` | A caller is followed at once by all responses to its calls, in their original order |
| `ToolReorder.ToolMessageCount` | `private_gpt/chat/input_models.py:746-771` | For all inputs: how often a tool message comes out is its count times its callers, plus "tldr" occurrences before any caller |
| `ToolReorder.ToolMessageKeptIffCalled` | `private_gpt/chat/input_models.py:746-771` | With distinct call ids a tool message comes out as often as it went in if some message calls it, else not at all |
| `ToolReorder.IdempotentIffTidy` | `private_gpt/chat/input_models.py:731-776` | Reordering twice is reordering once exactly when no tool message has two callers and no "tldr" one precedes its caller |
| `ToolReorder.DistinctCallsAreTidy` | `private_gpt/chat/input_models.py:731-776` | Distinct call ids and no "tldr" tool message are enough for that |
| `SystemMessages.MessagesInput.ExtractSystemMessages` | `private_gpt/chat/input_models.py:1394-1442` | Changes the system list and the messages as the walk over the messages says |
| `InlineTexts.NoTextIsLost` | `private_gpt/chat/input_models.py:1394-1457` | Every text handed on comes from a block, and every non-empty text of a system block, by message and block index, is handed on once: the blocks of system messages, the user-side blocks added and the texts left over match one for one and in order |
| `InlineTexts.SystemTextsAreSaid` | `private_gpt/chat/input_models.py:1444-1457` | The texts of a system message are those at exactly the block indices whose block is a non-empty text, in order; of a plain string itself when non-empty |
| `SystemMessages.OthersKept` | `private_gpt/chat/input_models.py:1411-1435` | The other messages stay one for one; only user messages get texts, before or after what they hold |
| `InlineTexts.TextsStayWithTheUserBefore` | `private_gpt/chat/input_models.py:1429-1433` | The texts of a system message right behind a user message stay with it, behind what it holds |
| `InlineTexts.TextsGoToTheUserAfter` | `private_gpt/chat/input_models.py:1412-1419` | The texts of a system message behind an assistant message go to the next user message, before what it holds |
| `SystemMessages.FoldInlineSystem` | `private_gpt/chat/input_models.py:459-514` | The loop with its pending texts and back-patching puts texts where the plan says |
| `SystemMessages.GoesToTheNearestResult` | `private_gpt/chat/input_models.py:486-514` | Each inline text goes to the nearest tool result: behind the last one before it, or in front of the first one when none is before it |
| `SystemMessages.SomeIsNearest` | `private_gpt/chat/input_models.py:486-514` | With a tool result among the blocks every other block has such a nearest one |
| `FoldedTexts.ToolResultReceives` | `private_gpt/chat/input_models.py:459-514` | A tool result comes out at its place with one text more for each inline block placed at it, its non-empty texts joined: those up to the next result behind its output, the first one also those before it in front |
| `FoldedTexts.OthersComeOut` | `private_gpt/chat/input_models.py:459-514` | Every block that is neither comes out unchanged and in order |
| `SystemMessages.BlocksStay` | `private_gpt/chat/input_models.py:486-514` | All other blocks stay, in order, and only tool results get texts |
| `SystemMessages.DeliveredIffSomeResult` | `private_gpt/chat/input_models.py:459-514` | Read along the tool results, every non-empty inline text is delivered once and in order exactly when there is a tool result (or no such text); otherwise all are dropped |
| `MessageMerge.MergeMessages` | `private_gpt/chat/input_models.py:657-679` | The loop merges neighbours of one role |
| `MessageMerge.MergeIsByRuns` | `private_gpt/chat/input_models.py:657-709` | Merging gives one message for each run of one role: its leading strings joined by newlines, then all further blocks |
| `MessageMerge.RunsAreMaximal` | `private_gpt/chat/input_models.py:657-679` | Those runs are all of the messages, and two that meet differ in role |
| `MessageMerge.MergedAlternates` | `private_gpt/chat/input_models.py:657-679` | No two neighbours have one role afterwards |
| `MessageMerge.MergeKeepsBlocksIff` | `private_gpt/chat/input_models.py:681-709` | The role-tagged blocks are unchanged exactly when no run begins with two plain strings |
| `MessageMerge.ProcessMessages` | `private_gpt/chat/input_models.py:558-611` | The loop over messages and blocks computes the split |
| `MessageMerge.SplitAssistant` | `private_gpt/chat/input_models.py:563-606` | The block loop cuts an assistant message into its chunks |
| `MessageMerge.ChunksAreGood` | `private_gpt/chat/input_models.py:563-606` | The chunks are the blocks cut exactly where they must be: after a tool use and around a tool result |
| `MessageMerge.ProcessedAreGood` | `private_gpt/chat/input_models.py:558-611` | Every assistant message is one tool result alone, or blocks with at most one tool use, its last |
| `MessageMerge.ProcessKeepsBlocks` | `private_gpt/chat/input_models.py:558-611` | Splitting keeps all blocks with their roles in order |
| `MessageMerge.OthersPassThrough` | `private_gpt/chat/input_models.py:608-609` | Other messages pass through untouched |
| `MessageMerge.NonAssistantPicks` | `private_gpt/chat/input_models.py:608-609` | These are the messages at exactly the indices of other roles, in order |
| `JsonlRotation.JsonlSpanExporter.Export` | `private_gpt/observability/exporters.py:82-99` | Writes one line, after rotating if need be |
| `JsonlRotation.JsonlSpanExporter.Rotate` | `private_gpt/observability/exporters.py:101-114` | The descending rename loop moves every backup up by one number, whichever of them exist |
| `JsonlRotation.RotatesIffFull` | `private_gpt/observability/exporters.py:82-106` | The current file grows, and no other file changes, exactly when the line fits in it; otherwise the line begins a new current file |
| `JsonlRotation.WritingKeepsGood` | `private_gpt/observability/exporters.py:82-114` | Each line keeps the invariant below |
| `JsonlRotation.GoodOverRuns` | `private_gpt/observability/exporters.py:82-114` | After any number of lines the backups from the oldest on and the current file are a suffix of all that was written, numbered without gaps up to `backup_count`, each within `max_bytes` or a single line; without a limit everything is kept |
| `JsonlRotation.NothingDroppedBeforeFull` | `private_gpt/observability/exporters.py:101-114` | Lines are dropped only when a full set of backups makes room |
| `JsonlRotation.LastLineIsCurrent` | `private_gpt/observability/exporters.py:82-99` | The line just written ends the current file |
| `ExporterDiscovery.SetFailsIffBlocked` | `private_gpt/settings/settings_loader.py:181-190` | Setting a value fails exactly when a proper prefix of its path holds one |
| `ExporterDiscovery.SetThenLookUp` | `private_gpt/settings/settings_loader.py:181-194` | The value is then at its path; values below that path are gone and all others stay |
| `ExporterDiscovery.ParseIff` | `private_gpt/settings/settings_loader.py:175-180` | A variable counts exactly when an id without an underscore, an underscore and something more follow the prefix |
| `ExporterDiscovery.SplitIsLeftmost` | `private_gpt/settings/settings_loader.py:182` | The parameter is cut at every double underscore, from the left |
| `ExporterDiscovery.ListItemsAre` | `private_gpt/settings/settings_loader.py:192-193` | A tag list has the cells between its commas as items, in order, without the blanks around them and without blank ones |
| `ExporterDiscovery.BuildFailsIffConflict` | `private_gpt/settings/settings_loader.py:175-194` | For any order of variables: building fails exactly when a path is set after a proper prefix of it |
| `ExporterDiscovery.BuildHoldsExpected` | `private_gpt/settings/settings_loader.py:175-194` | Otherwise a path holds the last value set there unless a shorter path was set later |
| `ExporterDiscovery.PathOrderIsNameOrder` | `private_gpt/settings/settings_loader.py:175-182` | Among upper-case names of one exporter a longer path means a longer name, so sorting puts the shorter first |
| `ExporterDiscovery.UpperCaseNames` | `private_gpt/settings/settings_loader.py:154-197` | When an exporter's own names have no lower-case letter, whatever else is in the environment, its discovery fails exactly when one path is a proper prefix of another; otherwise each variable's value is at its path and there are no other values |
| `ExporterDiscovery.LowerCaseReplacesSilently` | `private_gpt/settings/settings_loader.py:173-194` | `..._A_B__C` and `..._A_b`: the paths clash, and yet nothing fails and the first value is gone |
| `ExporterDiscovery.Discover` | `private_gpt/settings/settings_loader.py:173-197` | The loop over sorted names builds every exporter in order of first appearance, or fails exactly when one of them cannot be built |
| `SemaphoreManager.MemorySemaphoreManager.StartProcessor` | `private_gpt/components/concurrency/memory_semaphore_manager.py:101-115` | Creates the workers once, as many as `max_concurrency or 2` allows |
| `SemaphoreManager.MemorySemaphoreManager.Execute` | `private_gpt/components/concurrency/memory_semaphore_manager.py:117-137` | Registers and queues the request under the next number |
| `SemaphoreManager.MemorySemaphoreManager.Dequeue` | `private_gpt/components/concurrency/memory_semaphore_manager.py:80-84` | The task of `wait_for` takes the least entry for an idle worker |
| `SemaphoreManager.MemorySemaphoreManager.Begin` | `private_gpt/components/concurrency/memory_semaphore_manager.py:55-67` | The worker goes on with its entry and begins the function if that is still registered |
| `SemaphoreManager.MemorySemaphoreManager.Finish` | `private_gpt/components/concurrency/memory_semaphore_manager.py:60-73` | Settles the future if it is pending; CancelledError kills the worker instead |
| `SemaphoreManager.MemorySemaphoreManager.CancelFuture` | `private_gpt/components/concurrency/memory_semaphore_manager.py:139-140` | Cancelling the caller cancels its future if that is pending |
| `SemaphoreManager.MemorySemaphoreManager.Withdraw` | `private_gpt/components/concurrency/memory_semaphore_manager.py:141-143` | The cancelled caller goes on and withdraws its function |
| `SemaphoreManager.BegunOnceAndOwnOutcome` | `private_gpt/components/concurrency/memory_semaphore_manager.py:50-143` | In every run each request begins at most once, no more run than there are workers, and a settled future holds its own request's outcome |
| `SemaphoreManager.NoRequestForgotten` | `private_gpt/components/concurrency/memory_semaphore_manager.py:50-143` | A request with a pending future is registered and queued or held by a worker, or runs, or its function ended with CancelledError |
| `SemaphoreManager.KilledIsLost` | `private_gpt/components/concurrency/memory_semaphore_manager.py:60-73` | In every run a request whose function ended with CancelledError is not settled, run or registered, and each has cost one worker for good |
| `SemaphoreManager.KilledNeverComesBack` | `private_gpt/components/concurrency/memory_semaphore_manager.py:60-73` | And whatever comes after, it never is |
| `SemaphoreManager.KilledLeavesTheCallerWaiting` | `private_gpt/components/concurrency/memory_semaphore_manager.py:60-73` | A run that ends with such a caller waiting and no worker left |
| `SemaphoreManager.SettledOnce` | `private_gpt/components/concurrency/memory_semaphore_manager.py:60-73` | A settled or cancelled future never changes |
| `SemaphoreManager.OnlyEarlierOnesAreTaken` | `private_gpt/components/concurrency/memory_semaphore_manager.py:75-99` | While a request stays in the queue, every entry taken from it has higher priority, or the same and came earlier |
| `SemaphoreManager.FirstComeFirstTaken` | `private_gpt/components/concurrency/memory_semaphore_manager.py:75-136` | Of two requests of one priority, the one executed first is given to a worker first, in every run |
| `SemaphoreManager.SomeoneIsNext` | `private_gpt/components/concurrency/memory_semaphore_manager.py:75-99` | While the queue holds an entry, an idle worker can be given one |
| `SemaphoreManager.LateBeginsAreHeldOnes` | `private_gpt/components/concurrency/memory_semaphore_manager.py:75-99` | While a request stays in the queue, every request begun comes before it, except those whose entries workers held at the start, no more than there are workers |
| `SemaphoreManager.HeldOneBeginsFirst` | `private_gpt/components/concurrency/memory_semaphore_manager.py:75-99` | A run in which a held entry begins while a more urgent one waits |
| `SemaphoreManager.CancelledMayBegin` | `private_gpt/components/concurrency/memory_semaphore_manager.py:139-143` | A run in which a function begins although its caller was cancelled |
| `HttpCapture.SseErrorSniffer.Feed` | `private_gpt/observability/http.py:98-110` | The loop over the markers looks at the tail and the new chunk |
| `HttpCapture.ErrorIffMarker` | `private_gpt/observability/http.py:84-110` | However a stream is cut up, an error is noted exactly when some marker occurs in it; until then the tail is its last 64 bytes |
| `HttpCapture.ErrorIsTheEvent` | `private_gpt/observability/http.py:98-110` | The error is noted with the first chunk that brings a marker; it is a stretch of the stream that begins with a marker and ends with its event, or after 2000 bytes or with that chunk when no end of the event has come |
| `HttpCapture.ChunkingDoesNotMatter` | `private_gpt/observability/http.py:84-110` | Both for the program's own three markers |
| `HttpCapture.CappedBuffer.Add` | `private_gpt/observability/http.py:59-74` | The buffer holds the first `limit` bytes of all that was added and counts all |
| `HttpCapture.CappedBuffer.TruncatedIffOverLimit` | `private_gpt/observability/http.py:76-78` | `truncated` holds exactly when more than `limit` bytes were added |

## Left out

- ArqProtocol: ARQ's own `run_job`, retries and result handling are one finishing step that removes the lock and the queue entry, or requeues the job.
- ArqStore: non-UTF-8 lock bytes; worker and job names are strings.
- ArqWorker: the throttle clock is a real number read once, and the pass and the claim loop of the class are uninterrupted; their interleavings are in ArqProtocol, whose recovery steps read one lock at a time.
- Abandoned chats (`finish_failed_job`, `_fail_abandoned_chat`) and the rest of the health check: plumbing around the counts.
- Expiry of keys other than worker leases and in-progress locks: long safety nets.
- CheckpointStore: JSON encoding of checkpoints and results, which are opaque values here, and connection errors.
- EnvironmentManager: one session at a time, since sessions share only the manager's lock; the branch of `session_lock` that proceeds without the lock; Redis semaphores and their TTL; an acquire cancelled half-way.
- EnvironmentSandboxes: kills by other processes that share a sandbox, and which of the unkilled sandboxes a provider restores.
- NoEnvironmentIsLost: does not model `_spawn` without a running event loop, which skips the kill with a warning, because every step here is one of a task of such a loop.
- EnvironmentTables: the reaper's pass is uninterrupted in the class; its interleavings are in EnvironmentManager.
- SessionLock: the retry loop until the deadline; each attempt is one step.
- VolumeDedupe: renaming in place (a mount object listed twice would be renamed once); names made from targets and digests of targets are any functions.
- DropSpans: renaming of spans and forwarding of `on_start`; the two locked sections of `on_end` are one step; what is exported in runs in which a parent ends before its child.
- ExporterView: copies of resources and the choice of route names; what is merged is the turn's attributes.
- TraceTags: pattern matching of rules and the order of the tag list.
- Utf8: lone surrogates, which Python refuses to encode.
- OutputTruncation: the text of the omission marker, sizes in human units, a `head_ratio` outside 0..1, and the interceptors that are single regular expressions.
- MemoryCache: a negative `max_entries` and the two-tier cache service.
- PathLocator: Unicode normalisation and the look of a path are any functions of a word; the sandbox's answers are a parameter.
- ToolReorder, SystemMessages, MessageMerge: fields of messages and blocks that these functions do not read; `_reorder_tldr_messages`.
- JsonlRotation: failing file operations and a rotation cut short; each line is written whole.
- ExporterDiscovery: nested dictionaries are values here, so walking down with `current` becomes a recursion; lower-casing is that of ASCII; `sorted` is a parameter; models from the environment follow the same scheme.
- SemaphoreManager: `close`, the Redis variant, and the time limit of `queue.get`, which only repeats the wait; which of several idle workers is given an entry.
- HttpCapture: decoding of the captured bytes; route patterns and the request middleware.
- Redis, Celery, OpenTelemetry and llama-index internals, HTTP servers, settings models, database inspectors, the CLI and the remaining helpers.
