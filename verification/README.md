# Dispatch: a verified model

Dispatch launches long Impala jobs from several processes at once. This project models its hardest
parts in Dafny and proves what they promise over every input, every run or every reachable state.
`dafny verify dfyconfig.toml` checks the whole project.

## How it is organised

Code that the repository runs step by step is modelled by methods, loops and classes, each proved
equal to a specification function; the theorems are lemmas about those functions and about
transition systems built from them. What the specification functions themselves say is stated
separately, in the terms of the data alone: the modules `LedgerFiles`, `CapacityProgress`,
`HierarchyEvents`, `PollTimes`, `SqlStates`, `RegionLaws`, `HintText` and `LogLines` hold nothing else.

- **Capacity** (`LedgerFormat`, `LedgerFiles`, `Capacity`, `CapacityRuns`, `CapacitySafety`,
  `CapacityProgress`, `AsyncAdmission`, `ManifestStore`). The ledger file with its validators and its version 1 migration; the operations under the capacity
  lock; all processes together as a transition system in which a commit is two steps, so that a
  process can die after the Pending manifest is written and before the ledger is saved; the
  asynchronous admission with its cancellation race; the versioned manifest store with all its
  writers. `JobStates` holds what the ledger and the store share. Assumed: pids are not reused, nobody
  deletes the ledger, each file write is atomic. Not assumed: that a runner's claim follows its check at
  once, or, in the asynchronous admission, that the callback, any reconciliation or any save succeeds; a
  save may raise before the file is replaced or after it.
- **Monitor** (`Hierarchy`, `HierarchyEvents`, `EventTail`, `MonitorFiles`, `Pollers`, `PollTimes`). The tolerant fold of the event
  stream, the incremental byte tail against the batch replay, and the poller scheduler with one
  ticking thread. Assumed: the event file is only appended to while it keeps its identity.
- **SQL text** (`SqlRegions`, `RegionLaws`, `HintMasks`, `HintSearch`, `TableRef`, `HintText`,
  `Semicolon`, `SqlStates`). The lexical
  partition, hint search, masking, table references, and the terminal delimiter.
- **Monthly job** (`Calendar`, `MonthlyScript`, `PoolCycle`, `DateIntervals`). Two month enumerators,
  the generated script as statements over a table catalog, the retry driver, and the advisor's date
  intervals.
- **Logs, HTTP, installation** (`LogStream`, `LogLines`, `CircuitBreaker`, `RuntimeInstall`).
- `Basics` and `Decimals` hold what several modules share.

## What turned out not to hold as promised

Each of these is kept as the code has it, with a concrete witness and the condition under which the
promise holds.

- After a crash inside a commit the saved ledger can hold owners whose process is dead, and those plus
  the active jobs can exceed the two slots (`CapacitySafety.DeadOwnersCanStayInTheFile`). A step from a
  file within two stays there exactly when it does not write a job, or bring one back, while the file as
  saved leaves no slot free (`CapacitySafety.FileFitsExactly`, over a run `CapacitySafety.FileFitsThroughARun`).
- The runner's check for Pending and its write of Running are two separate accesses. A terminal manifest
  is brought back to life only by a claim whose check is out of date, and such a run exists
  (`ManifestStore.ReactivationNeedsStaleCheck`, `ManifestStore.SplitClaimReactivates`). Such a claim takes
  a slot without asking: the two slots are kept exactly when one was free
  (`CapacityRuns.ReviveTakesASlot`), and a run exceeds them by at most the number of these claims
  (`CapacitySafety.CapacityNeverExceeded`).
- "Raised means that the callback never ran" fails when the callback itself, or the reconciliation or the
  save after it, raises, and exactly then (`AsyncAdmission.ExitTellsWhetherTheCallbackRan`); a cancellation
  during the discard that follows even makes the call end as cancelled
  (`AsyncAdmission.CancelledAfterTheCallback`).
- At the exit of an asynchronous admission the intent is still in the ledger exactly when the discard did
  not get the lock in time, or raised before it had saved, or the registration raised after it had saved,
  and neither a reconciliation nor the commit has taken the intent out (`AsyncAdmission.IntentGoneAtExit`,
  with the runs `AsyncAdmission.IntentCanStay`, `AsyncAdmission.FailedDiscardLeavesTheIntent` and
  `AsyncAdmission.FailedRegistrationLeavesTheIntent`). The first reconciliation that is saved after
  `deadline_at` removes it (`AsyncAdmission.IntentGoneAfterExpiry`).
- A version 2 event may name a call that looks like a generated `legacy-` identifier; a later version 1
  shell then takes that call over and its shells are lost (`Hierarchy.NamedLegacyCallIsTakenOver`). Each
  shell has one call exactly in the streams in which no event does so (`Hierarchy.OwnedExactly`,
  `Hierarchy.EveryShellHasOneCall`).
- Unsubscribing is documented never to cancel a poll that is already due and never to remove a job's state
  (dispatch/monitor_service.py:676-716). The last subscriber's leaving puts off every due poll by 30 seconds,
  exactly when its poller still runs (`PollTimes.DuePollsArePutOff`, `PollTimes.WatchedOnceAndPutOff`), and
  forgets the job exactly when nothing else tracks it and no poller of it runs
  (`PollTimes.LeavingForgetsExactly`, `PollTimes.WatchedOnceAndForgotten`).
- The semicolon stripper takes the last character of a text that ends inside a quote for the delimiter,
  and between two dashes the removal turns the first dash into a comment
  (`Semicolon.OnlyTheTerminalSemicolonGoes`, `Semicolon.QuotedSemicolonGoes`, `Semicolon.DashesCanJoin`).
- A monthly range without months drops the final table and then fails on an empty query
  (`MonthlyScript.FullRun`, `MonthlyScript.NoMonthLosesTheTable`).
- Both month enumerators step past the last month they list and therefore raise when the range ends in
  December 9999 (`Calendar.MonthRange`, `Calendar.MonthlyRange`, `Calendar.LastDayRaises`); the 13-month
  check raises for a range that starts in December 9998 or later (`DateIntervals.WhenTheLimitRaises`,
  `DateIntervals.OneDayRaises`).
- The follower that ends on a terminal state has bytes left that were there when it looked exactly when
  reading the size failed at that turn and the log was longer than the offset before it
  (`LogStream.DrainedExactly`, `LogStream.UndrainedEnd`).
- A runtime that passes the completion predicate has all its files as long as no clean-up deletes a file
  under the marker, and no longer (`RuntimeInstall.WholeExactly`, `RuntimeInstall.CompleteMeansWhole`). It
  happens after a failed change of modes, both when a crash cuts the clean-up short and, without any crash,
  when the rest resists deletion, since shared_runtime.py:330 ignores errors; the next install then
  activates what is left (`RuntimeInstall.UnfinishedCleanUpLooksComplete`). Which failed builds leave such
  a runtime is stated by `RuntimeInstall.FailedBuildLooksComplete`.

## Model

| member | source | states |
|---|---|---|
| LedgerFormat.ValidateMetadataOwners | dispatch/capacity.py:200-218 | the loop accepts exactly the owner lists whose rows all decode and whose tokens are distinct |
| LedgerFormat.ValidateLaunchIntents | dispatch/capacity.py:221-242 | the loop accepts exactly the intent lists whose rows all decode with distinct sequences, and returns those sequences |
| LedgerFormat.ValidateJobReservations | dispatch/capacity.py:245-257 | the loop accepts exactly the reservation lists whose rows all decode with distinct job ids |
| LedgerFormat.ValidateLedgerVersion | dispatch/capacity.py:260-298 | validation succeeds exactly on the files that decode to a ledger, every queued sequence below the next one |
| LedgerFormat.DecodedIsValid | dispatch/capacity.py:200-298 | whatever decodes is well-formed: distinct tokens, sequences and job ids, next sequence above every queued one |
| LedgerFormat.SavedLoadsBack | dispatch/capacity.py:331-416 | saving then loading gives back the same ledger exactly when it is well-formed, and is refused otherwise |
| LedgerFormat.MigrationKeepsEntries | dispatch/capacity.py:301-328 | every valid version 1 file loads as a valid ledger with all entries kept and one deadline stamped on the intents |
| LedgerFiles.LedgersAreLoaded | dispatch/capacity.py:200-328 | field by field, for every file: a version 2 file loads as the ledger it holds, a version 1 file as the one it holds with 30 seconds for every queued launch, any other as nothing |
| LedgerFiles.FilesAreRead | dispatch/capacity.py:260-298 | a file decodes to a ledger exactly when it has the five keys, the rows of the ledger in order, no repeated token, sequence or job id, and the next sequence above every queued one |
| LedgerFiles.VersionsAreCompared | dispatch/capacity.py:276-277 | which JSON values Python takes for a version number: True for 1, 2.0 for 2 |
| Capacity.WorkingLedger.DropDead | dispatch/capacity.py:640-649 | in place, exactly the owners with a live process and the intents that are alive and not expired are kept, in order |
| Capacity.WorkingLedger.ReserveActiveJobs | dispatch/capacity.py:574-600 | one pass over the jobs fails the stale ones on disk, each in one atomic rewrite, and reserves the active ones, stopping at an active job without id or with one already reserved |
| Capacity.WorkingLedger.Reconcile | dispatch/capacity.py:640-669 | the whole reconciliation in place equals its specification, on the ledger and on the jobs directory |
| Capacity.SweepStops | dispatch/capacity.py:640-669 | once the pass has failed, every later job is left untouched |
| Capacity.Home.Acquire | dispatch/capacity.py:703-726 | a metadata lease is granted exactly when a slot is free (and, for statistics, nobody queues); the ledger saved in every outcome |
| Capacity.Home.Release | dispatch/capacity.py:689-700 | exactly the lease's token leaves the reconciled ledger |
| Capacity.Home.Register | dispatch/capacity.py:754-780 | an intent is queued under the next sequence unless both slots are active jobs or the deadline has passed |
| Capacity.Home.Admit | dispatch/capacity.py:783-845 | a queued launch commits exactly when it is first and a slot is free; what is saved in every other outcome |
| Capacity.Home.AdmitNow | dispatch/capacity.py:848-862 | a zero-timeout launch commits exactly when nothing is queued and a slot is free |
| Capacity.MetadataLease.Release | dispatch/capacity.py:680-700 | the whole ledger and jobs afterwards: releasing twice releases once, and a failed release changes no ledger and can be tried again |
| CapacityRuns.AcquireKeepsInv | dispatch/capacity.py:703-726 | granting a lease keeps live owners plus active jobs within two |
| CapacityRuns.CommitQueuedKeepsInv | dispatch/capacity.py:790-845 | writing a queued launch's Pending manifest keeps the bound before the ledger is saved, and no older intent can still be admitted |
| CapacityRuns.CommitNowKeepsInv | dispatch/capacity.py:848-862 | the same for a zero-timeout launch, which finds nobody alive in the queue |
| CapacityRuns.FinishCommitKeepsInv | dispatch/capacity.py:790-807 | the second reconciliation and the save keep every invariant |
| CapacityRuns.DieKeepsInv | dispatch/capacity.py:640-669 | the death of any process at any moment, the lock holder included, keeps every invariant |
| CapacityRuns.ReviveTakesASlot | dispatch/runner.py:132-151 | a late claim that brings a terminal manifest back uses one slot more, so it keeps the bound of two exactly when a slot was free |
| CapacityRuns.StepKeepsInv | dispatch/capacity.py:574-862 | every step of the protocol and of its environment, late claims included, keeps every invariant |
| CapacitySafety.CapacityNeverExceeded | dispatch/capacity.py:574-862 | in every interleaving, crashes inside a commit included, active manifests plus saved owners that are alive never exceed two plus the number of late claims; two when each claim follows its check directly |
| CapacitySafety.DeadOwnersCanStayInTheFile | dispatch/capacity.py:790-807 | a run in which saved owners, dead ones counted, plus active jobs exceed two |
| CapacitySafety.FileFitsExactly | dispatch/capacity.py:790-862 | a step keeps saved owners, dead ones counted, plus active jobs within two exactly unless it writes or brings back a job when the file as saved has no slot free |
| CapacitySafety.FileFitsThroughARun | dispatch/capacity.py:574-862 | a whole run stays within two in that count exactly when no step of it does so |
| CapacitySafety.SavedLedgerStaysLoadable | dispatch/capacity.py:387-416 | in every run the saved ledger loads back unchanged |
| CapacitySafety.AdmissionsAreFifo | dispatch/capacity.py:754-845 | in every run queued launches are admitted in strictly increasing order of sequence |
| CapacitySafety.NobodyIsOvertaken | dispatch/capacity.py:783-862 | whoever writes a manifest is queued and precedes every surviving intent, so a zero-timeout launch never passes the queue |
| CapacityProgress.SweepExactly | dispatch/capacity.py:574-669 | the jobs directory goes through exactly when all jobs that hold a slot have ids of their own; then jobs that have lost theirs are failed and the others stay |
| CapacityProgress.LoadsExactly | dispatch/capacity.py:640-669 | what a locked block works on: the live owners, the intents still waiting and the jobs that hold a slot, all of them |
| CapacityProgress.FirstInLineGetsIn | dispatch/capacity.py:810-845 | a queued launch gets in exactly when it is in time, waits in the queue with nobody before it, and a slot is free |
| CapacityProgress.EmptyQueueLetsIn | dispatch/capacity.py:848-862 | a zero-timeout launch gets in exactly when nobody waits and a slot is free |
| CapacityProgress.FreeSlotIsLeased | dispatch/capacity.py:703-726 | a lease is granted exactly when a slot is free and, for statistics, nobody waits |
| CapacityProgress.FreeJobSlotQueues | dispatch/capacity.py:754-780 | a launch is queued under the next number exactly when jobs do not hold both slots and it is in time |
| CapacityProgress.HowAnAttemptEnds | dispatch/capacity.py:810-845 | busy, timed out, waiting and committed attempts told apart by the jobs, the queue and the slots |
| CapacityProgress.HowTheOthersEnd | dispatch/capacity.py:754-862 | the same for registrations and zero-timeout launches |
| CapacityProgress.JobIsWritten | dispatch/capacity.py:790-845 | whoever gets in has its job at its place, all others reconciled, and the file unchanged until the commit ends |
| CapacityProgress.CommitTakesOutItsIntent | dispatch/capacity.py:790-807 | what the commit saves: everything that still lives, without its own intent |
| CapacityProgress.ReleaseFreesItsToken | dispatch/capacity.py:689-700 | a release takes out its token and dead owners, nobody else |
| CapacityProgress.DiscardTakesOutItsIntent | dispatch/capacity.py:735-747 | a discard takes out its intent and those that no longer wait, nobody else's |
| AsyncAdmission.LaunchControl.CancelBeforeCommit | dispatch/capacity.py:110-115 | the cancellation wins exactly when the commit has not begun, and is remembered |
| AsyncAdmission.LaunchControl.BeginCommit | dispatch/capacity.py:117-124 | the commit begins exactly when not cancelled and before the deadline, and which error is raised otherwise |
| AsyncAdmission.ExitTellsWhetherTheCallbackRan | dispatch/capacity.py:905-1030 | the callback runs at most once; a normal return means once, with its result returned; anything raised means never, exactly unless the callback itself or the reconciliation or save after it raised |
| AsyncAdmission.CancelledAfterTheCallback | dispatch/capacity.py:790-807 | a run in which the callback ran, the save failed and the call ends as cancelled |
| AsyncAdmission.CommitPrecedesDeadline | dispatch/capacity.py:117-124 | a queued launch never commits at or after its deadline |
| AsyncAdmission.RaceIsSettled | dispatch/capacity.py:102-124 | the outcome of the race at the commit boundary never changes again, nor does an exit |
| AsyncAdmission.CancellationRace | dispatch/capacity.py:920-933 | after a cancellation the call returns its result exactly when the commit had begun before it and nothing in the commit raises |
| AsyncAdmission.IntentGoneAtExit | dispatch/capacity.py:735-780 | at exit the intent is there exactly when the discard lost the lock at or after the deadline, or raised before saving, or the registration raised after saving, and neither a reconciliation nor the commit has taken it out; what the call raises in each case |
| AsyncAdmission.IntentCanStay | dispatch/capacity.py:735-747 | a run whose discard loses the lock and which ends with the intent still there |
| AsyncAdmission.FailedDiscardLeavesTheIntent | dispatch/capacity.py:735-747 | a run whose discard raises the ledger error of the attempt again: it ends so long before the deadline |
| AsyncAdmission.FailedRegistrationLeavesTheIntent | dispatch/capacity.py:754-780 | a run whose registration raises after the file is replaced: nobody discards the intent |
| AsyncAdmission.IntentGoneAfterExpiry | dispatch/capacity.py:905-917 | the first reconciliation that is saved after the intent's deadline removes it for good |
| AsyncAdmission.ResumeKeepsInv | dispatch/asyncio_utils.py:11-18 | every resumption of the caller, waiting out the worker after a cancellation included, keeps the invariant |
| AsyncAdmission.WhenACommitBegins | dispatch/capacity.py:117-124 | in an attempt the commit begins exactly when no cancellation has won and a queued launch is in time; which error otherwise |
| AsyncAdmission.HowACancelledAttemptLeaves | dispatch/capacity.py:920-933 | with the attempt's ledger error and the deadline for the discard, or else cancelled with no limit |
| AsyncAdmission.CancelledOnlyIfAsked | dispatch/capacity.py:950-1030 | a run without a cancellation never ends as cancelled |
| AsyncAdmission.NeverStuck | dispatch/capacity.py:950-1030 | in every reachable state the worker can move or the caller go on, until the call is over |
| ManifestStore.ManifestFile.Write | dispatch/manifest.py:157-160 | a write installs the contents under a stamp never used before |
| ManifestStore.ManifestFile.WriteIfUnchanged | dispatch/manifest.py:162-188 | the file is replaced exactly when its stamp is the loaded one |
| ManifestStore.ManifestFile.UpdateIfCurrent | dispatch/manifest.py:211-223 | the three reconciled fields change exactly when the contents are the ones judged |
| ManifestStore.ReconcileReplacesOnlyWhatItJudged | dispatch/job_lifecycle.py:71-97 | under every interleaving a reconcile write replaces exactly the version judged: Running with a dead pid or Pending without one, never a terminal manifest or a live runner |
| ManifestStore.SameStaleRule | dispatch/job_lifecycle.py:71-97 | what the capacity ledger keeps of a manifest is judged stale, and reconciled, as the manifest itself is |
| ManifestStore.StaleJobsAreFailed | dispatch/job_lifecycle.py:71-97 | a manifest is failed exactly when its runner is dead or it has waited five minutes for one, with exit code -1 |
| ManifestStore.WhatEachWriterWrites | dispatch/runner.py:70-151 | what claims, ends and reconciliations change in the file, and that nothing else does |
| ManifestStore.StepKeepsInv | dispatch/jobs.py:110-133 | judgements from the cache stay true of the contents they compare, whoever writes in between |
| ManifestStore.TerminalIsFinal | dispatch/runner.py:70-151 | with claims that follow their check directly, a terminal manifest stays terminal |
| ManifestStore.ReactivationNeedsStaleCheck | dispatch/runner.py:132-151 | a terminal manifest comes back to life exactly by a claim, and that claim's check is out of date |
| ManifestStore.SplitClaimReactivates | dispatch/runner.py:132-151 | a run in which that happens |
| Hierarchy.HierarchyBuilder.FeedLine | dispatch/monitor_service.py:271-306 | feeding a line in place is one step of the fold |
| Hierarchy.HierarchyBuilder.CallForEvent | dispatch/monitor_service.py:308-344 | the call found or created for an event, or none when the event contradicts what is known |
| Hierarchy.HierarchyBuilder.HandleQuery | dispatch/monitor_service.py:389-435 | a discovery starts a tree, a retry goes below the newest branch; incomplete or early events change nothing |
| Hierarchy.HierarchyBuilder.LeafQueries | dispatch/monitor_service.py:460-476 | the walk over calls, shells and statements lists the live leaves |
| Hierarchy.NodesAreAcceptedEvents | dispatch/monitor_service.py:389-458 | a shell's nodes are exactly its accepted discovered and retried events in order, none lost, none duplicated |
| Hierarchy.ShellsAreStartedShells | dispatch/monitor_service.py:346-378 | a shell exists exactly when an accepted start for it has been seen |
| Hierarchy.EarlyQueriesAreDropped | dispatch/monitor_service.py:389-435 | query events before their shell's start leave no node |
| Hierarchy.LeafEndsChain | dispatch/monitor_service.py:108-113 | the live attempt of a retry chain is its last node, sequence numbers increase along it, and all but its root are retries |
| Hierarchy.OneRootPerDiscovery | dispatch/monitor_service.py:389-408 | there are as many trees as accepted discoveries |
| Hierarchy.LeavesAreChainEnds | dispatch/monitor_service.py:460-476 | every discovered query has exactly one leaf, the end of its chain |
| HierarchyEvents.CallsAreAsStated | dispatch/monitor_service.py:308-344 | which events are accepted and under which call, what each call was opened with and in which order, all from the stream: the builder knows exactly these |
| HierarchyEvents.ShellsAndNodesAreAsStated | dispatch/monitor_service.py:346-435 | what every shell takes from its first start and its last end, and every node from its event, position by position, none lost and none invented |
| HierarchyEvents.NodePositions | dispatch/monitor_service.py:389-435 | the events that become nodes: discoveries and retries with both fields, under an accepted call, after their shell's start and, for a retry, after a discovery |
| HierarchyEvents.CallsOwnTheirShells | dispatch/monitor_service.py:308-368 | a call owns exactly the shells started under it, in the order of their starts |
| Hierarchy.OwnedExactly | dispatch/monitor_service.py:308-344 | an event keeps each shell under exactly one call, exactly unless it is a new version 1 shell whose generated call identifier is already taken |
| Hierarchy.EveryShellHasOneCall | dispatch/monitor_service.py:308-368 | after any stream each shell sits under exactly one call, once, exactly when no event of it did that |
| Hierarchy.UnnamedNeverTakesOver | dispatch/monitor_service.py:308-344 | no event does that while no version 2 event names a `legacy-` call |
| Hierarchy.NamedLegacyCallIsTakenOver | dispatch/monitor_service.py:308-344 | a stream that breaks that condition and leaves a shell under no call |
| Hierarchy.LegacyIdsDiffer | dispatch/monitor_service.py:308-322 | generated call identifiers with different numbers differ, whatever the shells are called |
| Hierarchy.QueryNodesAreTheAcceptedEvents | dispatch/monitor_service.py:445-458 | after any stream without a taken-over call, the visit of the whole hierarchy lists the accepted events of every started shell exactly once |
| EventTail.SplitConcat | dispatch/monitor_service.py:1036-1045 | splitting bytes in two portions with the fragment carried over gives the lines of the whole |
| EventTail.ObserveReadsOn | dispatch/monitor_service.py:998-1050 | one observation continues after what was seen, or starts again, up to the size seen and the cap |
| EventTail.TailIsReplay | dispatch/monitor_service.py:998-1050 | whenever and however the file was looked at, the tail's builder is the batch replay of the bytes read, the pending bytes follow their last newline, and the offset stays within 1 MiB |
| EventTail.TailFollowsTheFile | dispatch/monitor_service.py:998-1050 | for a file that is only appended to under one identity: after any look at it that opens, whatever came before, the tail is the batch replay of the file itself up to 1 MiB |
| EventTail.ChangedFileIsRead | dispatch/monitor_service.py:1013-1050 | a file that differs in identity, size or time is read, whether replaced, cut, rewritten or appended to |
| EventTail.WhatElseIsReported | dispatch/monitor_service.py:998-1030 | what is reported for missing, failing, unchanged and unopenable files; only a missing one starts the tail over |
| MonitorFiles.TailedHierarchyIsReplay | dispatch/monitor_service.py:479-516 | the incrementally built hierarchy equals the replay of the complete lines read so far |
| MonitorFiles.TailedHierarchyIsTheFiles | dispatch/monitor_service.py:998-1050 | after any look at a file that is there, the tailed hierarchy is that of the file's complete lines |
| MonitorFiles.ReplayEventFile | dispatch/monitor_service.py:479-516 | the batch replay of a file, its last fragment dropped; no hierarchy for a missing file and an empty one for a file that cannot be read |
| MonitorFiles.CompleteLines | dispatch/monitor_service.py:1036-1045 | cutting at the last newline gives the complete lines and the fragment |
| MonitorFiles.TailState.TailEventFile | dispatch/monitor_service.py:998-1050 | the cursor, buffer and builder after each kind of observation: missing, failing, unchanged, grown, replaced |
| Pollers.MonitorService.SyncPollers | dispatch/monitor_service.py:1052-1077 | every leaf gets a poller, existing ones are kept, and those no longer live are marked |
| Pollers.MonitorService.MarkSupersededPollers | dispatch/monitor_service.py:1079-1086 | exactly the unstopped pollers of the job that are not live become superseded, with one poll due |
| Pollers.MonitorService.PruneJobIfFinished | dispatch/monitor_service.py:1088-1101 | a job without subscribers and background tracking is dropped with all its pollers |
| Pollers.MonitorService.Subscribe | dispatch/monitor_service.py:654-674 | subscribing tracks, refreshes and tightens the cadence |
| Pollers.MonitorService.Unsubscribe | dispatch/monitor_service.py:676-693 | unsubscribing loosens the cadence and prunes when nobody is left |
| Pollers.MonitorService.RecordReply | dispatch/monitor_service.py:1151-1181 | what a reply does to its poller: terminal count, supersession, stop |
| Pollers.PollersTrackLeaves | dispatch/monitor_service.py:1052-1101 | in every reachable state each leaf of a tracked job has a poller, each unstopped poller is a leaf or awaits its one superseded poll, and an untracked job has none |
| Pollers.PollersStopInTime | dispatch/monitor_service.py:1115-1181 | at most one poll starts after supersession, at most two terminal observations are recorded, and nothing else stops a poller |
| Pollers.PollsAreForLivePollers | dispatch/monitor_service.py:1115-1150 | polls in flight or waiting belong to pollers that are tracked and not stopped |
| PollTimes.PollsComeInTime | dispatch/monitor_service.py:694-725 | in every run on a forward clock, the next poll of a watched job's query is at most 2 seconds away and any other at most 30 |
| PollTimes.WhatAReplyDoes | dispatch/monitor_service.py:1151-1181 | what a reply records, when it stops the poller, and that the next poll is a whole cadence away |
| PollTimes.FirstSubscriberTightens | dispatch/monitor_service.py:694-725 | the first subscriber draws polls to 2 seconds and puts none off |
| PollTimes.LastSubscriberLoosens | dispatch/monitor_service.py:694-725 | the last one's leaving puts polls off to 30 seconds |
| PollTimes.DuePollsArePutOff | dispatch/monitor_service.py:710-725 | a poll already due is put off too, exactly when its poller runs |
| PollTimes.WatchedOnceAndPutOff | dispatch/monitor_service.py:710-725 | a run in which that happens |
| PollTimes.SubscribersAreCounted | dispatch/monitor_service.py:654-693 | subscribers go up and down by one and touch no other job |
| PollTimes.LeavingForgetsExactly | dispatch/monitor_service.py:676-693 | leaving forgets the job exactly when it was the last, nothing tracks the job and no poller of it runs |
| PollTimes.WatchedOnceAndForgotten | dispatch/monitor_service.py:676-693 | a run in which that happens |
| PollTimes.FinishedJobsAreDropped | dispatch/monitor_service.py:1088-1101 | a job is dropped exactly when nobody holds it and all its pollers have stopped, and its pollers with it |
| PollTimes.RefreshExactly | dispatch/monitor_service.py:1052-1086 | new leaves get pollers due at once, running pollers of no leaf are marked and due at once, all others stay |
| SqlRegions.IterLexicalRegions | dispatch/advisor/adapter.py:227-284 | the scanning loop computes the regions |
| SqlRegions.RegionsPartition | dispatch/advisor/adapter.py:227-284 | the regions are back to back from 0 and carry the class of each character; the last ends at the end, or one past it exactly for an unterminated string with an odd run of backslashes |
| SqlRegions.QuoteOverrun | dispatch/advisor/adapter.py:257-275 | a string that reaches the end overruns it exactly when the backslashes there are odd in number |
| RegionLaws.LineCommentRuns | dispatch/advisor/adapter.py:237-246 | two dashes begin a comment that ends with the first newline after them |
| RegionLaws.BlockCommentRuns | dispatch/advisor/adapter.py:248-257 | a slash and a star begin one that ends with the first star and slash after them |
| RegionLaws.StringRuns | dispatch/advisor/adapter.py:259-279 | a quote mark begins a string that ends with the first same mark neither escaped nor doubled |
| RegionLaws.CutStringRuns | dispatch/advisor/adapter.py:259-279 | a text that ends within an escape overruns by one |
| RegionLaws.IdentifierRuns | dispatch/advisor/adapter.py:259-279 | a backtick begins an identifier that the next backtick ends |
| RegionLaws.CodeRuns | dispatch/advisor/adapter.py:281-284 | any other character is code by itself |
| HintMasks.ApplyMasks | dispatch/advisor/adapter.py:217-224 | exactly the covered characters become spaces |
| HintMasks.MaskingKeepsClasses | dispatch/advisor/adapter.py:217-284 | masking code and whole comments keeps the length and, when the copy is scanned again, the class of every other character |
| HintSearch.CollectHintsAndMasks | dispatch/advisor/adapter.py:105-160 | the loops collect the hints, without their tables, and one mask per hint |
| HintSearch.EveryWordIsFound | dispatch/advisor/adapter.py:112-137 | the leftmost search finds every occurrence of a keyword |
| HintSearch.HintsAreThoseInCode | dispatch/advisor/adapter.py:105-160 | the hints are exactly the keywords and join hints found in executable text |
| HintSearch.ParseCopyKeepsClasses | dispatch/advisor/adapter.py:58-92 | every hint the advisor masks is safe to mask: the parse copy keeps the length and the class of all other characters |
| HintSearch.ParseCopy | dispatch/advisor/adapter.py:58-92 | a character of the copy is blank and code exactly where a hint was, and otherwise itself in its own class |
| HintText.KeywordsStandAlone | dispatch/advisor/adapter.py:27-28 | a keyword is its letters in either case with no word character on either side |
| HintText.HintsAreAsSpelled | dispatch/advisor/adapter.py:129-147 | after JOIN a hint is found exactly when nothing but blanks and its text follow: its marks, blanks and the name of its kind |
| TableRef.SkipSqlTrivia | dispatch/advisor/adapter.py:198-214 | the loop skips whitespace and comments |
| TableRef.SkipsOnlyTrivia | dispatch/advisor/adapter.py:198-214 | from a token boundary only blanks of code and whole comments are skipped, and the end is a token boundary |
| TableRef.ReadTableRef | dispatch/advisor/adapter.py:163-195 | the loop reads the dotted reference |
| TableRef.TableIsOutsideStrings | dispatch/advisor/adapter.py:105-195 | the table recorded with a hint lies between token boundaries after it and touches no string |
| TableRef.CollectHintRecords | dispatch/advisor/adapter.py:105-160 | the hint records: each join hint with the table that follows it, `STRAIGHT_JOIN` with none, every table after its hint and outside strings |
| HintText.PartsAreAsWritten | dispatch/advisor/adapter.py:175-186 | a part is the text between two backticks or an identifier as long as it goes |
| HintText.TablesAreAsWritten | dispatch/advisor/adapter.py:163-195 | the table is the dotted reference written after blanks and comments, as far as it goes, and none exactly when no part is there |
| Semicolon.StripTerminalSemicolon | scr/monthly_query_processor.py:66-94 | the scanning loop computes the stripped text |
| Semicolon.OnlyTheTerminalSemicolonGoes | scr/monthly_query_processor.py:39-94 | outside quotes exactly the delimiter followed only by blanks and comments is removed, if there is one; a text that ends in a quote loses a last semicolon |
| Semicolon.RemovalKeepsStates | scr/monthly_query_processor.py:39-94 | every other character keeps its lexical state, except the first of two dashes that the removal joins |
| Semicolon.QuotedSemicolonGoes | scr/monthly_query_processor.py:66-94 | an unterminated string that loses its last semicolon |
| Semicolon.DashesCanJoin | scr/monthly_query_processor.py:66-94 | a text in which it joins them |
| SqlStates.LineCommentEndsAtNewline | scr/monthly_query_processor.py:51-78 | two dashes begin a comment and the first newline ends it |
| SqlStates.BlockCommentEndsAtClose | scr/monthly_query_processor.py:51-82 | a slash and a star begin one and the first star and slash end it |
| SqlStates.QuoteEndsAtItsMark | scr/monthly_query_processor.py:39-49 | a quote ends with the first same mark neither escaped nor doubled |
| SqlStates.QuoteWithoutItsMark | scr/monthly_query_processor.py:39-49 | without one it runs to the end of the text |
| SqlStates.TextGoesOn | scr/monthly_query_processor.py:51-63 | any other character leaves the scanner in statement text |
| SqlStates.EndIsPastTheEnd | scr/monthly_query_processor.py:66-90 | the final state is the state of the position past the end |
| Calendar.AddDaysCounts | scr/monthly_query_processor.py:21-26 | adding days through month and leap-year ends adds that many to the Gregorian ordinal |
| Calendar.GregorianMonths | scr/monthly_query_processor.py:153-156 | the lengths of the months, leap years included |
| Calendar.ThirtyTwoDaysOn | scr/monthly_query_processor.py:21-26 | 32 days after the first of a month lie in the next month, or out of range in December 9999 |
| Calendar.MonthRange | dispatch/sql.py:197-205 | the carry loop lists the months of the range in order, or raises exactly when the range ends in December 9999 |
| Calendar.MonthlyRange | scr/monthly_query_processor.py:21-26 | the 32-day loop gives the same list under the same condition |
| Calendar.LastDayRaises | dispatch/sql.py:197-205 | a range that holds a month and makes both loops raise |
| Calendar.ListedMonths | scr/monthly_query_processor.py:21-26 | an enumeration lists the first day of each month of the range once, in order, or raises exactly when the range ends in December 9999 |
| Calendar.WindowsAreAdjacent | scr/monthly_query_processor.py:153-156 | each month's window ends the day before the next one starts, leap years included |
| Calendar.EveryDayInOneWindow | scr/monthly_query_processor.py:153-156 | every day of the range lies in exactly the window of its month |
| MonthlyScript.BuildMonthlyJobQuery | scr/monthly_query_processor.py:133-183 | the loops build the script, the planned tables and the final name |
| MonthlyScript.TempNamesDiffer | scr/monthly_query_processor.py:147-159 | different months have different temporary tables |
| MonthlyScript.FillAll | scr/monthly_query_processor.py:152-170 | after the first months their tables hold their rows and every other table is as before, from any catalog |
| MonthlyScript.FullRun | scr/monthly_query_processor.py:133-183 | from any catalog a full run creates no existing table, reads no missing one, leaves no temporary table, the union of the months in order and all other tables untouched, exactly when there is a month |
| MonthlyScript.NoMonthLosesTheTable | scr/monthly_query_processor.py:133-183 | a range without a month: the script drops the final table of any catalog and then fails |
| MonthlyScript.RestartsAreHarmless | scr/monthly_query_processor.py:97-130 | any attempts cut off anywhere followed by one full run give the catalog of a single run |
| MonthlyScript.HowAnAttemptEnds | scr/monthly_query_processor.py:97-130 | an attempt succeeds exactly when it runs to its end without failing, and is fatal exactly when its failure is |
| MonthlyScript.DriverLeavesTheGoal | scr/monthly_query_processor.py:97-130 | the retrying job finishes exactly when its last attempt ran to the end, and then the final table is in place; other tables are untouched however it ends |
| MonthlyScript.RangeRunsToItsGoal | scr/monthly_query_processor.py:133-183 | for any dates in order, the built script run on any catalog leaves the union of the months of the range and no temporary table, without failing |
| MonthlyScript.ProcessMonthlyJob | scr/monthly_query_processor.py:186-207 | the whole job from dates to table: it raises exactly when the range ends in December 9999, finishes exactly when there is a month and the last attempt ran to the end, and then leaves the union of the months |
| PoolCycle.CycleThroughPools | scr/_common.py:410-426 | however many cycles are watched, with a limit or without, the driver stops at the first success or fatal error, times out after all pools in every allowed cycle, and otherwise is still retrying |
| PoolCycle.EndsExactly | scr/_common.py:410-426 | it times out or goes on exactly when every attempt there is room for was retried, and never times out without a limit |
| DateIntervals.IntervalsAreSound | dispatch/advisor/rules.py:651-754 | every date that satisfies the condition lies in a returned interval, whatever the rest of the row |
| DateIntervals.IntervalsAreExact | dispatch/advisor/rules.py:651-754 | with inclusive bounds and BETWEEN only, the intervals are exactly the solutions |
| DateIntervals.IntervalsArePermitted | dispatch/advisor/rules.py:651-754 | for every condition, strict bounds and unusable predicates included, the intervals hold exactly the dates it does not rule out when strictness is disregarded |
| DateIntervals.AddMonthsMonotone | dispatch/advisor/rules.py:769-781 | clamped month addition keeps the order of dates |
| DateIntervals.OneNarrowConjunctSuffices | dispatch/advisor/rules.py:729-781 | a conjunct on either side whose intervals are bounded and within the limit keeps the conjunction from being flagged |
| DateIntervals.FlaggedRangesAreReal | dispatch/advisor/rules.py:607-648 | for inclusive conditions both ends of a flagged range are solutions more than 13 months apart |
| DateIntervals.UnflaggedRangesAreNarrow | dispatch/advisor/rules.py:607-781 | with all intervals bounded and unflagged, every solution lies in a stretch within the limit |
| DateIntervals.WhenTheLimitRaises | dispatch/advisor/rules.py:769-781 | the check raises exactly for an ordered range that starts in December 9998 or later |
| DateIntervals.OneDayRaises | dispatch/advisor/rules.py:769-781 | a single day for which it raises |
| DateIntervals.WideDateRanges | dispatch/advisor/rules.py:607-648 | the loop reports exactly the flagged ranges, or raises exactly when some interval's limit is out of range |
| LogStream.SuffixLines | dispatch/job_ops.py:755-775 | all lines of a suffix of a text but its first are the last lines of the text |
| LogStream.ReadLogTailWithOffset | dispatch/job_ops.py:731-775 | the backward block read returns the last lines of the snapshot and its size, whatever is appended meanwhile, reading each byte at most once |
| LogStream.SplitRestores | dispatch/job_ops.py:811-816 | lines with their newlines plus the fragment are the bytes they were split from |
| LogStream.FollowLogs | dispatch/job_ops.py:778-823 | the loop emits what its turns say, and how it ends, for any file and any turns |
| LogStream.FollowStreams | dispatch/job_ops.py:778-823 | for an append-only log what is emitted is the tail and then exactly the lines of the bytes from the snapshot to the offset; a drained end has seen a terminal state |
| LogStream.DrainedExactly | dispatch/job_ops.py:796-823 | a drained end leaves bytes of the size then observed exactly when reading that size failed at the last turn and the log was longer than the offset before it |
| LogStream.UndrainedEnd | dispatch/job_ops.py:796-823 | a run that ends so with a line unread |
| LogLines.FollowerPrintsTheLog | dispatch/job_ops.py:778-823 | for an append-only log the printed lines after the tail, each with some carriage returns and a newline, and then the fragment, are the bytes from the snapshot to the offset |
| LogLines.WhatATurnReads | dispatch/job_ops.py:796-823 | a log that has grown is read to its end, one that was cut from its start, any other not at all, and when the loop ends |
| LogLines.StripReturnsTrims | dispatch/job_ops.py:811-822 | what is printed of a line is the line without its trailing carriage returns |
| LogLines.LinesWeave | dispatch/job_ops.py:771-775 | the lines of the tail, with their line breaks, are the text |
| LogLines.OneWayToWeave | dispatch/job_ops.py:771-775 | and there is only one way to cut it so |
| LogLines.LastNIsASuffix | dispatch/job_ops.py:771-775 | the tail is as many of the last lines as asked for and there are |
| CircuitBreaker.Circuit.IsOpen | dispatch/impala_monitor_http.py:147-176 | the breaker refuses within the cooldown and while a probe is out, and otherwise takes the probe slot |
| CircuitBreaker.Circuit.Failed | dispatch/impala_monitor_http.py:167-173 | a failure frees the probe slot, counts, and opens from the threshold on |
| CircuitBreaker.FetchEnforced | dispatch/impala_monitor_http.py:365-421 | the retry loop computes the requests sent, the breaker's new state and the result |
| CircuitBreaker.SendKeepsInv | dispatch/impala_monitor_http.py:391-417 | a request that the breaker lets through keeps its records equal to the history of requests |
| CircuitBreaker.FetchKeepsInv | dispatch/impala_monitor_http.py:365-421 | no call leaves a probe slot taken, although asking takes it |
| CircuitBreaker.HostsAreIndependent | dispatch/impala_monitor_http.py:126-176 | a call for one host leaves every other host's records alone |
| CircuitBreaker.BreakerInEveryRun | dispatch/impala_monitor_http.py:126-421 | in every run a breaker is open exactly when its host's requests end in enough failures, and after an opening failure the next request starts a cooldown later at the earliest |
| CircuitBreaker.WhatACallSends | dispatch/impala_monitor_http.py:365-421 | one request after the other for as long as they fail with an error, attempts are left and the breaker does not refuse; the reply of the last one if usable |
| CircuitBreaker.CallsGoOut | dispatch/impala_monitor_http.py:365-421 | in every run a permitted call sends a request exactly when the host's requests end in too few failures or a cooldown has passed |
| CircuitBreaker.RefusedCallsSendNothing | dispatch/impala_monitor_http.py:373-382 | calls outside the allowlist, or that would cancel a query, send nothing |
| RuntimeInstall.RuntimeRoot.RemoveTree | shared_runtime.py:329-331 | the clean-up's deletion loop removes, one file a step, exactly what does not resist, interpreter and marker included, and the directory when it is empty and does not resist |
| RuntimeInstall.RuntimeRoot.BuildRuntime | shared_runtime.py:229-264 | the exact files a build leaves, whether it succeeds or raises and is cleaned up |
| RuntimeInstall.FailedBuildLooksComplete | shared_runtime.py:322-331 | a build that raises leaves a release that passes for complete exactly when its directory could be made anew, only the change of modes failed, and interpreter and marker both resist deletion; it is then whole exactly when all files resist |
| RuntimeInstall.RuntimeRoot.Install | shared_runtime.py:307-340 | the outcome and the files of an installation and, as a log of single steps, every state a crash may leave |
| RuntimeInstall.WhatInstallLeaves | shared_runtime.py:307-340 | success activates a complete release; failure leaves `current` as it was; it is refused exactly for an active release that is not complete; complete and active releases and all others keep their files |
| RuntimeInstall.WhenInstallSucceeds | shared_runtime.py:307-340 | the exact conditions for a reused, built and refused runtime, and the files of a built one |
| RuntimeInstall.WhatADeletionLeaves | shared_runtime.py:236-237 | a deletion leaves exactly what resists it |
| RuntimeInstall.ActiveStaysUntouched | shared_runtime.py:267-280 | whatever happens, while `current` stays where it is its release is neither removed nor changed |
| RuntimeInstall.CurrentIsComplete | shared_runtime.py:283-340 | across any installs with a crash after any file operation, `current` is absent or points to a complete runtime |
| RuntimeInstall.DeletingNeverCompletes | shared_runtime.py:111-126 | deleting an incomplete runtime, in any order and however far, never makes it look complete |
| RuntimeInstall.WholeExactly | shared_runtime.py:322-336 | a step keeps every runtime that looks complete whole exactly unless it is a clean-up deleting a file of a release that still looks complete |
| RuntimeInstall.CompleteMeansWhole | shared_runtime.py:322-336 | across any installs and crashes, a runtime that looks complete has every file it was validated with, all along, exactly when no step of a clean-up does that |
| RuntimeInstall.UnfinishedCleanUpLooksComplete | shared_runtime.py:322-336 | a run with a crash and one without, in which a clean-up that does not finish leaves a runtime that looks complete without its files, and the next install activates it |

## Left out

- Textual screens, notebooks, telemetry, configuration, Kerberos and process wrappers: no protocol or algorithm of their own.
- JSON parsing, UTF-8 decoding and decoding errors: events arrive parsed, lines are bytes, ledger files are JSON values.
- File modes, symbolic links, fsync, Windows locks: file replacement is atomic and locks exclude each other.
- Saves that raise, in the methods of `Capacity`: the operation then ends as if saved or as if only the jobs directory was reconciled, and the steps of `CapacityRuns` allow both.
- The manifest paths inside the ledger and their checks against the jobs directory (dispatch/capacity.py:603-637): settled by single branches.
- The test for a statistics operation (dispatch/capacity.py:676): a flag of the lease request.
- Identity recovery in the monitor (dispatch/monitor_service.py:778-988): it adds nodes from outside the event stream.
- SQLGlot parsing and the rules that walk its trees: the conditions of the date rule are a type of their own; names arrive in lower case.
- Case folding and word boundaries beyond ASCII in hint search, and the sorting of the mask list, whose order has no effect.
- The template tokens, file locations and wording of the monthly script: its statements are values, a monthly query is an arbitrary function of the catalog without the script's own tables.
- `strptime` and the argument checks of the monthly job; a year below 1000 is written without padding.
- Line breaks of more than one byte (U+0085, U+2028, U+2029) in log tails.
- Real time, threads, HTTP and TLS: the clock is any monotone sequence, each request has an arbitrary outcome, threads are steps.
- The capability and discovery caches of the HTTP client, and formatting, classification and identifier helpers.
- HierarchyBuilder: the source's builder keeps shell objects inside call objects; here a call holds shell identifiers and the records are in one table, so aliasing is not modelled.
- sync_background_jobs: modelled as the registrations and releases it makes, one step each.
- RuntimeRoot.RemoveTree: used for the first `rmtree` (shared_runtime.py:236-237) too, which in the source stops at the first file it cannot delete, here the others go too; the clean-up that follows deletes them in any case, and the transition system allows either order.
- WorkingLedger.ReserveActiveJobs: the compare-and-swap loop that rewrites a stale manifest is one atomic rewrite; `ManifestStore` has the loop's steps and all other writers.
- WorkingLedger.Reconcile: paths that only the saved reservations name are not visited; their directory is gone, so they load as missing and reserve nothing.
