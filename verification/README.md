# kDrive sync: a model in Dafny

The project models the sync engine of kdrive-fuse: planning a push, a pull or a two-way sync against the last synced
baseline, carrying a plan out with a pool of workers and periodic checkpoints, crashing at any moment, and running
again. Around it stand the parts it relies on: the executors and the folder resolver, the concurrent remote index, the
chunked upload session, the manifest file, and, from the mounted drive, the write handle and the disk cache.

Code that changes state in place is a class or a method with a loop, proved against a function or predicate of the old
state. Goroutines are step machines whose runs are all sequences of enabled steps (`Pool`, `Building`), or loops that
choose the next goroutine freely (`Sessions`). A call into the drive or the disk may fail at any time; `if *` and `:= *`
stand for what it decides. A field `faults` counts the failures, so that a contract can say that nothing fails for another
reason; for the requests of an upload, which are made again, `books` counts by request how often it was made and how that
ended. Results that the environment only reports, such as the order in which outcomes reach the
collector, are parameters.

| file | part |
|---|---|
| `types`, `texts`, `ordering`, `paths`, `clean_paths`, `decimal` | records, strings, sorting, paths, path cleaning, numbers |
| `manifest`, `store`, `store_reading`, `store_roundtrip` | the manifest in memory, its file, what its lines mean, what reads back |
| `pool`, `collect` | the worker pool over all schedules, the collector and its manifest updates |
| `world`, `twoway_planning`, `twoway`, `twoway_crash`, `twoway_runs`, `twoway_fixpoint`, `twoway_driver`, `verify` | two-way sync |
| `planning`, `moves_planning`, `guard`, `one_way` | push and pull, moves, the deletion guard |
| `push_trace`, `push_world`, `push_crash`, `push_record`, `push_recovery`, `push_crossing`, `push_refresh`, `push_limits`, `push_examples`, `push_baseline_examples` | a push call by call, what it records, its recovery from crashes, where that ends |
| `executor`, `pull_executor`, `move`, `move_effect`, `resolver` | the calls that change the drive and the local tree |
| `index`, `build` | the remote index |
| `chunks`, `session_accounts`, `session` | the upload session, its requests and their retries |
| `write_handle`, `disk_cache` | the mounted drive's write handle and file cache |

## What holds, and where it ends

Some properties one would expect do not hold of the code as it is. Each has a lemma that says exactly when they do, or
shows the failing case.

- A forced push recovers from any number of crashes, between any two calls (`PushRecovery.CrashesDoNotMatter`), with
  four exceptions. For the first two the exact condition is `PushRefresh.RecoversIff`; each has a concrete failing push.
  - A move to another folder under another name is two calls; between them the file lies in the new folder under its
    old name. If an upload of the same plan goes to that very path, it can find the moving file there and overwrite it,
    after a crash or when two workers interleave (`PushCrossing.CrossingCanFail`, `PushExamples.HalfMoveExample`).
  - A push that refreshes its baseline loses a file whose move was not recorded: the re-run finds it under its new path
    and deletes it by the id still recorded for the old one (`PushRefresh.RefreshLosesMoved`,
    `PushBaselineExamples.RefreshExample`).
  - A baseline that becomes empty on the way is seeded again, and untracked files of equal size are then taken for
    synced (`PushLimits.EmptiedManifestSkips`, `PushBaselineExamples.EmptiedManifestExample`).
  - Of two files that could both be the new place of a deleted one, the second is taken for it once the first is
    recorded, and gets the deleted file's bytes: harmless exactly if those are its own
    (`PushLimits.AmbiguityChangesContent`, `PushExamples.AmbiguityExample`).
- A forced move of a file whose remote copy others changed records the size it should have, not the one it has
  (`PushRecord.CompletePushRecords`).
- Without force a push takes its own unrecorded overwrite for somebody else's (`PushLimits.OwnOverwriteIsDrift`).
- The drift filter of a pull does not protect an edited file whose remote copy is gone
  (`PushLimits.EditedFileIsAtRiskIff`).
- A file pulled into a directory that the local walk leaves out is deleted remotely by the next two-way run
  (`TwoWayFixpoint.PulledFileStaysIffWalked`).
- A download needs its path with `.tmp` added for itself; a file of that name is lost
  (`PullExecuting.DownloadIsLocalIff`).
- When the drive omits parent ids, a rename within one folder leaves a file that others moved away where it is
  (`Moving.Move`).
- The manifest file keeps every path that fits on its line, and no other (`StoreRoundTrip.LoadsBackIff`).
- An upload session that is given up because the caller's context is done is not cancelled on the drive: the request to
  cancel carries the same context and is not sent (`Sessions.GivenUpIsCancelledIff`, `Sessions.LeftOpenExample`).
- A worker that looked at the context just before it was cancelled still starts its call (`Pool.CancelStopsCalls`).
- The write handle is a POSIX file unless it is truncated to a part before it is seeded, its seeding or a write breaks
  off half way, the disk refuses to resize its working file, or it is written after it was committed
  (`WriteHandles.TruncateBeforeSeedingIff`, `WriteHandles.BrokenSeedIff`, `WriteHandles.TornWriteIff`,
  `WriteHandles.TruncateRefusedIff`, `WriteHandles.LateWritesAreLostIff`).

## Model

| member | source | states |
|---|---|---|
| Pool.NoRunDeadlocks | pkg/syncer/run.go:63-113 | in every state of every schedule in which the collector has not returned, some goroutine can move without a new cancellation |
| Pool.EveryRunTerminates | pkg/syncer/run.go:55-150 | no schedule takes more than six steps an item, one a worker and four more |
| Pool.OutcomesAreUnique | pkg/syncer/run.go:67-86 | at any moment each item has at most one outcome, made by a worker before it is recorded |
| Pool.OneOutcomePerItem | pkg/syncer/run.go:67-113 | when the collector returns every item has exactly one recorded outcome, cancelled or not |
| Pool.OutcomesAreAnswers | pkg/syncer/run.go:67-86 | every outcome is what the executor answered for its item, or the error of an item passed over after a cancellation |
| Pool.WithoutCancelAllAreCalled | pkg/syncer/run.go:67-86 | in a run that is not cancelled every item gets its call, and the collector has the answer to it |
| Pool.CallsAtOnce | pkg/syncer/run.go:56-66 | never more calls at once than jobs asked for, or than one if fewer than one were |
| Pool.CancelStopsCalls | pkg/syncer/run.go:67-86 | once the context is cancelled no worker that looks at it starts a call; the only calls still to come are those of workers that had looked just before, at most one each |
| Pool.SuccessesNeedCalls | pkg/syncer/run.go:75-85 | every success comes from a call that was started and is over |
| Pool.BoundedRework | pkg/syncer/run.go:46-48 | at every moment at most 64 + workers actions are carried out or under way but not on disk; a checkpoint is taken at every 64th success and at no other time; at the end fewer than 64 are missing; a checkpoint counts as saved |
| Collecting.Collect | pkg/syncer/run.go:101-150 | the manifest is the fold of the successes, the counters their tally; the disk has what some checkpoint wrote, the one at the latest 64th success if no save failed |
| Collecting.Apply | pkg/syncer/run_pull.go:109-123 | realises `RecordOne`, one step of the fold; what the steps together make of an entry is `Collecting.RecordedAt`, that it describes what the drive and the disk then hold `PushRecord.RecordedIsThere` and `TwoWay.SettledIsMerged` |
| Collecting.TallyTotals | pkg/syncer/run.go:29-37 | the counters add up to the number of outcomes, there are as many errors as failures |
| Collecting.CountersCount | pkg/syncer/run.go:119-147 | each counter is the number of successes of its own operation |
| Collecting.ErrorsAreTheFailures | pkg/syncer/run.go:114-118 | the errors reported are those of the failed items |
| Collecting.RecordedAt | pkg/syncer/run.go:119-147 | an entry is decided by the one success that touches it, and stays without one |
| PushRecord.RecordedIsThere | pkg/syncer/run.go:119-147 | a recorded success of any operation, moves included, leaves an entry with the id, the size and the mtime that the file at its path then has on the drive, and none where none is; only a moved file keeps a size that was not the recorded one |
| PushRecord.CompletePushRecords | pkg/syncer/run.go:119-147 | after a complete recorded push the baseline looks, at every planned path, as the remote tree does, exactly unless a moved file had another size than recorded |
| PushRecord.NothingLeftToPush | pkg/syncer/plan.go:41-65 | and the next plan is empty |
| Collecting.OrderDoesNotMatter | pkg/syncer/run.go:50-54 | the same outcomes in any order leave the same manifest when no two items share a path |
| Collecting.RunEqualsSequentialFold | pkg/syncer/run.go:55-150 | any finished schedule counts every item once and leaves the manifest of a single worker going in plan order |
| Manifests.Manifest.Get | pkg/infrastructure/manifest/manifest.go:26-30 | the entry of a path, or none |
| Manifests.Manifest.Set | pkg/infrastructure/manifest/manifest.go:32-35 | replaces the entry of that path only |
| Manifests.Manifest.Delete | pkg/infrastructure/manifest/manifest.go:37-40 | removes the entry of that path only |
| Manifests.Disk.Save | pkg/infrastructure/manifest/store.go:82-84 | a save replaces the whole file at once, or fails and leaves it as it was |
| Planning.PlanPush | pkg/syncer/plan.go:41-65 | one action for every path whose local side is not the recorded one, and no other; which action is `Planning.PushActs` |
| Planning.PushActs | pkg/syncer/plan.go:41-65 | for any plan and path: there is an item exactly if the file is not tracked, gone, or has another size or mtime than recorded; and its operation, id, size and mtime |
| Planning.PlanDeletes | pkg/syncer/plan.go:59-63 | the deletes that complete the plan |
| Planning.PlanPull | pkg/syncer/plan_pull.go:25-43 | one action for every path whose remote side is not the recorded one, and no other; which action is `Planning.PullActs` |
| Planning.PullActs | pkg/syncer/plan_pull.go:25-43 | for any plan and path: there is an item exactly if the remote file is not tracked, gone, or has another size or mtime than recorded; and its operation, id, size and mtime |
| Planning.LooksAsRecorded | pkg/syncer/plan.go:46-58 | a side is the recorded one exactly if it has a file of the recorded size and mtime, or no file where none is recorded |
| Planning.Bootstrap | pkg/syncer/plan.go:129-149 | the baseline gains an entry for every local file the index knows, from its last listing; what the entries are worth is `Planning.SeededFromBoth` |
| Planning.SeededFromBoth | pkg/syncer/plan.go:134-147 | a seeded entry looks as the remote file does, and as the local one exactly if their sizes are equal; all other entries stay |
| Planning.FirstPushPlan | pkg/syncer/plan.go:129-149 | the first push of a seeded baseline uploads what is not there, overwrites what has another size there and does nothing else; an unseeded one uploads everything |
| Planning.IndexLocal | pkg/syncer/pull.go:82-89 | the walk by path |
| Planning.DropDeletes | pkg/syncer/push.go:137-145 | the plan without its deletes, in order |
| Planning.DropPullDeletes | pkg/syncer/pull.go:111-119 | the plan without its local deletes, in order |
| Planning.NoDeletesAre | pkg/syncer/push.go:137-145 | exactly the items that are no deletes stay |
| Planning.FilterPushDrift | pkg/syncer/push.go:96-135 | keeps the items `Undrifted` picks, in order; which these are is `Planning.UndriftedAre`; an error exactly if a stat of an item to check fails |
| Planning.FilterDrift | pkg/syncer/pull.go:91-109 | keeps the items `Unedited` picks, in order; which these are is `Planning.UneditedAre` |
| Planning.UndriftedAre | pkg/syncer/push.go:103-133 | kept are exactly the uploads and moves, the overwrites and deletes of a file with the recorded size and mtime or of an untracked path, and the deletes of a file that is gone |
| Planning.UneditedAre | pkg/syncer/pull.go:94-107 | kept are exactly the deletes, the downloads to a path without a file, and those to a tracked file of the recorded size and mtime |
| MovePlanning.FillBuckets | pkg/syncer/plan.go:76-95 | uploads and deletes by size and mtime, empty files left out |
| MovePlanning.PairUp | pkg/syncer/plan.go:96-116 | in any order of the map, the moves of exactly the keys with one upload and one delete, and the positions they take up |
| MovePlanning.PairOf | pkg/syncer/plan.go:99-112 | a move if and only if its key has one upload and one delete |
| MovePlanning.DetectMoves | pkg/syncer/plan.go:67-127 | the rewritten plan is the moves of all unambiguous pairs and the items of none, each path once |
| MovePlanning.MovesArePairs | pkg/syncer/plan.go:67-74 | a move stands for one planned upload and one planned delete of the same non-empty size and the same mtime, and no item is part of two |
| MovePlanning.RewriteKeepsFootprintsDisjoint | pkg/syncer/plan.go:120-126 | no two items of the rewritten plan share a path |
| MovePlanning.CompleteRunMatchesLocal | pkg/syncer/run.go:119-147 | a completed plan, rewritten or not, leaves the recorded local side equal to the local tree |
| MovePlanning.MovesPreserveMeaning | pkg/syncer/plan.go:67-127 | both plans, carried out in any order, leave the same keys, sizes and local mtimes |
| TwoWayPlanning.Classify | pkg/syncer/plan_twoway.go:36-75 | the flags and branches for one path are a three-way merge of what each side looks like with what was recorded; what that does with it is `TwoWayPlanning.PlanActs` |
| TwoWayPlanning.PlanTwoWay | pkg/syncer/plan_twoway.go:19-79 | every path is sorted by its merge verdict into push, pull, conflicts or nothing; which these are is `TwoWayPlanning.PlanActs`; conflicts sorted |
| TwoWayPlanning.PlanActs | pkg/syncer/plan_twoway.go:40-75 | for any plan and path: pushed exactly if only the local side changed; pulled exactly if only the remote one did, or both are gone; a conflict exactly if both changed and one has a file; each with the right operation, id, size and mtime |
| TwoWayPlanning.PlanPartitions | pkg/syncer/plan_twoway.go:10-17 | the three lists share no path and together hold every path that is out of sync |
| TwoWayPlanning.SeedSynced | pkg/syncer/twoway.go:96-111 | seeds exactly the paths with one size on both sides |
| TwoWay.RunRefinesMerge | pkg/syncer/twoway.go:79-94 | whatever the schedule and whichever items fail, a path whose item succeeded is merged, on both sides and in the baseline, and any other is exactly as it was |
| TwoWay.SettledIsMerged | pkg/syncer/run_pull.go:109-123 | one success, carried out and recorded, leaves equal bytes on both sides and a baseline that describes both, the winning side untouched |
| TwoWay.PlanIsRunnable | pkg/syncer/plan_twoway.go:47-61 | the planned ids name the files at the planned paths |
| TwoWay.EffectiveMembers | pkg/syncer/twoway.go:62-65 | carried out is every item of the plan, but no delete if they are turned off |
| TwoWayCrash.CrashReclassifies | pkg/syncer/plan_twoway.go:40-75 | planning again after a crash anywhere, from the manifest then on disk: what was recorded is in sync, an unrecorded delete is a both-gone cleanup, an unrecorded transfer a conflict between equal bytes exactly if its write looks new, every other path keeps its verdict; if the manifest is empty, seeded again, all that was carried out is in sync and only a conflict between copies of one size can look different |
| TwoWayCrash.RunKeepsReady | pkg/syncer/twoway.go:79-85 | a run, finished or not, keeps ids and baseline in agreement |
| TwoWayCrash.EditsKeepReady | pkg/syncer/plan_twoway.go:50-75 | edits between runs keep ids and baseline in agreement: any local ones, and remote ones that make no other file look as recorded |
| TwoWayCrash.EntryHasOrigin | pkg/syncer/twoway.go:96-111 | over such a history every new entry comes from a run at whose end both copies had the same bytes or, seeded, one size |
| TwoWayCrash.NoLostUpdate | pkg/syncer/plan_twoway.go:50-75 | over any history of runs, crashed ones included, with edits of both trees in between, a side is overwritten or removed only where it looks as its baseline recorded, and that was recorded before the history began or by a run at whose end both sides agreed |
| TwoWayCrash.SessionLosesNothing | pkg/syncer/twoway.go:58-61 | the same for one run, seeded or not |
| TwoWayRuns.MomentIsSession | pkg/syncer/twoway.go:79-85 | both pools stopped at any moment of any schedules, whichever answers were lost and saves failed, are a run in the sense of the crash and merge results |
| TwoWayRuns.FinalSaveHasAll | pkg/syncer/twoway.go:85-87 | when both pools have returned the final save has every outcome |
| TwoWayRuns.ExecutionsJoin | pkg/syncer/twoway.go:83-84 | the pull and then the push change the trees as one run of both plans |
| TwoWayRuns.RecordsJoin | pkg/syncer/twoway.go:83-84 | and the manifest too |
| TwoWayRuns.BoundedReworkOfBoth | pkg/syncer/twoway.go:83-84 | a crash at any moment of the pull or the push loses the record of at most 127 + workers actions, if no checkpoint failed |
| TwoWayFixpoint.NothingLeftToDo | pkg/syncer/plan_twoway.go:23-79 | after a complete run the next plan pushes and pulls nothing; its conflicts are among the earlier ones, and equal to them unless the run emptied the manifest |
| TwoWayFixpoint.ChangesArrive | pkg/syncer/plan_twoway.go:40-75 | after a complete run every change made on one side only is on both, byte for byte, with the side it was made on untouched; what changed on neither or both stays |
| TwoWayFixpoint.NothingLeftToReport | pkg/syncer/verify.go:42-61 | after a complete run without conflicts both trees have the same files at the same sizes |
| TwoWayFixpoint.PulledFileStaysIffWalked | pkg/syncer/walk.go:8-24 | a file just pulled stays in sync exactly if no directory above it is left out of the walk; otherwise its remote copy is planned for deletion |
| TwoWayDriver.Prepare | pkg/syncer/twoway.go:58-65 | seeding only an empty manifest, planning, dropping deletes |
| TwoWayDriver.Check | pkg/syncer/twoway.go:69-74 | refused if and only if either direction deletes too much |
| TwoWayDriver.RefusedIff | pkg/syncer/guard.go:32-43 | a run is refused exactly if it is not forced, the baseline is not empty and the deletes of one direction are more than the given fraction of it, or a fifth if none is given |
| TwoWayDriver.Execute | pkg/syncer/twoway.go:79-94 | pull then push then save: the manifest is both folds one after the other, and so is the disk if the save worked; otherwise it has what the last checkpoint that worked wrote; the counts are those of the successes of each direction |
| TwoWayDriver.Sync | pkg/syncer/twoway.go:42-94 | refused, previewed, carried out or not saved, what is on disk in each case, and the counts it reports |
| TwoWayDriver.SyncIsMerge | pkg/syncer/twoway.go:61-94 | what the pipeline leaves in both trees and on disk is the merge of every path whose item succeeded, and every other path as it was |
| TwoWayDriver.FirstRunDeletesNothing | pkg/syncer/twoway.go:58-61 | a plan from a freshly seeded baseline has no delete on either side |
| TwoWayDriver.GuardedSyncKeeps | pkg/syncer/twoway.go:69-74 | an unforced two-way run drops at most twice the allowed fraction of the tracked files |
| Verifying.Verify | pkg/syncer/verify.go:42-62 | each counter is the number of paths of its kind, together they are all paths of either tree; none is missing on a side exactly if that side has all paths, and there are no issues exactly if both have the same files at the same sizes |
| Guard.GuardDeletes | pkg/syncer/guard.go:5-17 | the decision on the number of planned deletes |
| Guard.GuardPullDeletes | pkg/syncer/guard.go:19-28 | the decision on the number of planned local deletes |
| Guard.RefusesIff | pkg/syncer/guard.go:9-43 | a plan is refused exactly if it is not forced, the baseline is not empty and the number of its deletes, counted item by item, is more than the given fraction of it, or a fifth |
| Guard.FilesAreConserved | pkg/syncer/run.go:119-147 | whatever fails, the tracked files are those before, plus uploads and new downloads, minus deletes |
| Guard.DeletionsAreBounded | pkg/syncer/guard.go:10-15 | no run deletes more than its plan says |
| Guard.GuardedPushKeeps | pkg/syncer/guard.go:32-43 | a plan that passed keeps all but the allowed fraction of the tracked files |
| OneWay.PreparePush | pkg/syncer/push.go:60-73 | when the baseline is seeded, and the plan as it is rewritten by the options |
| OneWay.Push | pkg/syncer/push.go:51-94 | the whole pipeline: each answer, a failed save among them, the kept plan, the manifest and the disk |
| OneWay.PushCarriesOut | pkg/syncer/push.go:74-79 | carried out are exactly the forced items, the uploads and moves, the overwrites and deletes of an unchanged remote file or an untracked path, and the deletes of a file that is gone |
| OneWay.PreparePull | pkg/syncer/pull.go:60-66 | the plan, filtered by drift unless forced, without deletes if asked; which items stay is `OneWay.PullCarriesOut` |
| OneWay.PullCarriesOut | pkg/syncer/pull.go:60-66 | kept are exactly the deletes, if allowed, and the downloads that are forced, or go to a path without a file or to a tracked unedited one |
| OneWay.PullBringsChanges | pkg/syncer/pull.go:43-80 | after a complete pull each remotely changed path that is not locally edited has the remote bytes, or no file if the remote one is gone; with force the edited ones too |
| OneWay.Pull | pkg/syncer/pull.go:43-80 | the whole pipeline: each answer, a failed save among them, the kept plan, the manifest and the disk; what it brings is `OneWay.PullBringsChanges` |
| OneWay.EmptyBaselineDeletesNothing | pkg/syncer/guard.go:5-8 | from an empty manifest a push deletes and moves nothing, however it is seeded |
| OneWay.PushKeepsTracked | pkg/syncer/push.go:80-82 | an unforced push that was let through keeps all but the allowed fraction of the tracked files, cut short or not |
| OneWay.PushLosesNoUpdate | pkg/syncer/push.go:96-101 | whatever the recorded ids are of by now, an unforced push, cut short anywhere, changes what lies at a remote path only by an overwrite or delete of a file that is as the baseline recorded, a move of that file, or an upload to an untracked path |
| OneWay.PushKeepsBytes | pkg/syncer/push.go:96-101 | and the bytes of a remote file stay on the drive, unless the file was as recorded for an overwrite or delete of it, or an upload goes to an untracked path where the file is or where a move brings it |
| OneWay.OneMoveMeansThree | pkg/syncer/executor.go:178-195 | with one move of a file these are its old path, the one halfway and the new one |
| OneWay.MovesKeepBytes | pkg/syncer/executor.go:141-144 | a move keeps its file's bytes at every moment, as long as no upload goes where a move passes through |
| PushTrace.MoveRelocates | pkg/syncer/executor.go:178-195 | a move by itself, in one call or two, brings its file to its new path |
| PushWorld.RunInProgress | pkg/syncer/executor.go:48-211 | over any number of runs each item is not begun, half moved or done, a success makes it done, and done again stays done |
| PushCrash.PlanShrinks | pkg/syncer/plan.go:46-127 | a later attempt plans what of the first plan is not recorded, moves included, and nothing else |
| PushCrash.BaselineAt | pkg/syncer/push.go:60-66 | the baseline of a push at a path both trees have describes both copies, if it is refreshed, or empty and not to be taken for new; otherwise it is what was recorded |
| PushCrash.OptionsRewrite | pkg/syncer/push.go:70-76 | which items the options leave: an upload and a delete become a move exactly if moves are asked for, deletes allowed, and they share a non-zero size and an mtime with each other and no other upload or delete; every other delete goes exactly if deletes are turned off, and all else stays |
| PushRecovery.AttemptKeepsUnderway | pkg/syncer/push.go:56-93 | one attempt, cut short between any two calls, leaves tree and baseline somewhere along the first plan; a complete one leaves every item done |
| PushRecovery.PoolMomentIsAttempt | pkg/syncer/push.go:89-90 | the pool stopped at any moment of any schedule, with calls under way, answers lost, moves half done and saves failed, is such an attempt |
| PushRecovery.CrashedPushReachesItsAim | pkg/syncer/executor.go:48-139 | however often a forced push crashes, the attempt that completes reaches what the first plan was for, as long as no upload goes where a move passes through |
| PushRecovery.CrashesDoNotMatter | pkg/syncer/executor.go:48-52 | the remote contents then are those of the same push uninterrupted |
| PushRefresh.RecoversIff | pkg/syncer/executor.go:72-92 | for a push that can be carried out: every history of attempts, once one completes, reaches what the first plan was for exactly if no upload of the plan goes to a path that a move of it passes through, and the push does not both refresh its baseline and move |
| PushCrossing.CrossingCanFail | pkg/syncer/executor.go:72-92 | whenever an upload and a move cross, a run in which every call succeeds can end with the upload's file missing, without any crash |
| PushCrossing.CompleteReaches | pkg/syncer/run.go:55-86 | without crossings every interleaving of a complete run does what the plan is for |
| PushExamples.HalfMoveExample | pkg/syncer/executor.go:178-195 | a concrete push: a crash between the two calls of a move, and a re-run that overwrites the moved file, loses another, and records both as synced |
| PushLimits.OwnOverwriteIsDrift | pkg/syncer/push.go:123-131 | an unforced re-run keeps its own unrecorded overwrite only if the drive reports the recorded size and mtime |
| PushLimits.EmptiedManifestSkips | pkg/syncer/push.go:60-66 | a complete re-run from an emptied manifest puts the local bytes at an untracked path exactly if the sizes differ or the bytes were equal |
| PushBaselineExamples.EmptiedManifestExample | pkg/syncer/push.go:60-66 | a concrete push: the first attempt empties the manifest, the second completes and leaves the remote bytes; without the failure the local ones get there |
| PushRefresh.RefreshLosesMoved | pkg/syncer/push.go:60-70 | a complete refreshing re-run after an unrecorded move leaves nothing at the moved file's path |
| PushRefresh.RefreshingRerun | pkg/syncer/push.go:60-93 | after a complete run that recorded nothing there is such a re-run: it plans only deletes, and overwrites of files that are there |
| PushBaselineExamples.RefreshExample | pkg/syncer/push.go:60-70 | a concrete push: a move carried out and not recorded, and a complete refreshing re-run that loses the file |
| PushLimits.AmbiguityIsResolvedLater | pkg/syncer/plan.go:98-102 | two or more uploads for one delete are left alone, and the last of them is paired once the others are recorded |
| PushLimits.AmbiguityChangesContent | pkg/syncer/plan.go:98-102 | a complete re-run puts the deleted file's bytes at its path, the uninterrupted push the local ones: the same exactly if these are equal |
| PushExamples.AmbiguityExample | pkg/syncer/plan.go:98-102 | a concrete push cut short and resumed that leaves other bytes than the same push in one go |
| PushLimits.EditedFileIsAtRiskIff | pkg/syncer/pull.go:94-107 | an edited local file is planned for deletion exactly if it is tracked, gone remotely, and deletes are allowed |
| PushLimits.PullLosesOnlyDeletedEdits | pkg/syncer/pull.go:91-109 | an unforced pull changes only files that are as recorded, those deleted edits, and files below pruned directories |
| Executing.Executor.Upload | pkg/syncer/executor.go:48-92 | a success puts the local bytes at the path under the id that was there or a new one; a failure leaves the path as it was or, if an answer got lost, as a success does; no other file is touched, and a failure has a cause |
| Executing.Executor.Send | pkg/syncer/executor.go:61-91 | the same from the resolved folder on, a name conflict turned into an overwrite |
| Executing.Executor.FindChild | pkg/syncer/executor.go:94-109 | the file of that name in the folder, or none |
| Executing.Executor.Overwrite | pkg/syncer/executor.go:111-128 | replaces the bytes of the file with that id wherever it is, answered or not, and keeps all other files |
| Executing.Executor.Delete | pkg/syncer/executor.go:130-139 | after a success no file has that id, gone before is success; a failure has removed it only if the answer got lost; all others are as they were |
| Executing.UploadIsEffect | pkg/syncer/executor.go:48-92 | the flat model of the remote tree allows an upload that takes effect, answered or not, and gives it this effect |
| Executing.OverwriteIsEffect | pkg/syncer/executor.go:111-128 | the flat model gives an overwrite this effect |
| Executing.DeleteIsEffect | pkg/syncer/executor.go:130-139 | the flat model gives a delete this effect |
| PullExecuting.PullExecutor.Download | pkg/syncer/run_pull.go:140-177 | a success replaces the file whole; a failure leaves it whole, old or new |
| PullExecuting.PullExecutor.DeleteLocal | pkg/syncer/run_pull.go:179-187 | gone before is success |
| PullExecuting.DownloadIsLocalIff | pkg/syncer/run_pull.go:153-168 | no other file changes exactly if none has the temporary name |
| PullExecuting.DownloadIsEffect | pkg/syncer/run_pull.go:140-177 | the flat model of the local tree gives a download this effect |
| PullExecuting.DeleteLocalIsEffect | pkg/syncer/run_pull.go:179-187 | the flat model gives a local delete this effect |
| Moving.Move | pkg/syncer/executor.go:141-211 | one attempt, cut short anywhere, moves and renames only as far as needed; a completed one is at its target and returns the live mtime; with parent ids omitted, exactly when it is |
| Moving.MoveHeals | pkg/syncer/executor.go:146-156 | over any number of attempts at most one move and one rename take effect; after the first that completes no changing call is issued |
| MoveEffect.MoveIsEffect | pkg/syncer/executor.go:165-211 | an attempt at a move, answered, refused or cut off between its calls, does to the remote files by path what events of its item do in the flat model; it is answered only if the last of them is the item's success |
| CleanPaths.DirAndBase | pkg/infrastructure/remoteindex/resolver.go:88-92 | the parent and the name of a clean path are its segments but the last, and the last |
| CleanPaths.ReadBack | pkg/infrastructure/remoteindex/resolver.go:76 | cleaning a clean path changes nothing and keeps its segments |
| Resolving.WalkIsInjective | pkg/infrastructure/remoteindex/resolver.go:14-18 | a folder has one path |
| Resolving.ResolveDir | pkg/infrastructure/remoteindex/resolver.go:14-42 | the folder at the path, not found exactly if there is none, or a listing failed; nothing changes |
| Resolving.Descend | pkg/infrastructure/remoteindex/resolver.go:24-41 | the loop over the segments |
| Resolving.Resolver.Resolve | pkg/infrastructure/remoteindex/resolver.go:67-77 | the folder that lookup then finds; as many folders made as were missing; new ones only along the path; the cache stays in agreement, failures included; it fails only if a call fails or a file is in the way |
| Resolving.Resolver.ResolveClean | pkg/infrastructure/remoteindex/resolver.go:79-109 | the same for the recursion on the parent path, which ends because paths get shorter |
| Resolving.Resolver.LookOrMake | pkg/infrastructure/remoteindex/resolver.go:92-108 | the folder of that name, made only if there is none |
| Resolving.BlockedIff | pkg/infrastructure/remoteindex/resolver.go:92-108 | a file is in the way exactly if the name after some part of the path is that of a file |
| Resolving.MissingIs | pkg/infrastructure/remoteindex/resolver.go:79-109 | the missing folders are exactly those after the longest part of the path that is there |
| Resolving.CacheSurvivesGrowth | pkg/infrastructure/remoteindex/resolver.go:49-52 | the cache agrees with lookup as long as nothing is removed |
| Resolving.ResolvedOnce | pkg/infrastructure/remoteindex/resolver.go:49-52 | what was resolved, and all above it, never has to be made again |
| Paths.JoinIsInjective | pkg/infrastructure/remoteindex/index.go:80-83 | different lists of slash-free names make different paths |
| Indexing.FilesAreUnique | pkg/infrastructure/remoteindex/index.go:79-91 | a tree has one file at a path |
| Indexing.FilesAreCounted | pkg/infrastructure/remoteindex/index.go:51-55 | it has as many paths as files |
| Paths.PrunedIff | pkg/syncer/walk.go:8-24 | a file is left out of the walk exactly if a directory above it has one of the two pruned names |
| Building.BuildIsTheTree | pkg/infrastructure/remoteindex/index.go:51-100 | an answer that is not an error has exactly one entry for each file, at its path, whatever the schedule |
| Building.BuildIsBounded | pkg/infrastructure/remoteindex/index.go:30-75 | at most the asked number of listings at once, or eight if none was asked for; every schedule ends |
| Building.NoDeadlock | pkg/infrastructure/remoteindex/index.go:67-96 | until all goroutines have returned one can go on |
| Building.ErrorsAreReported | pkg/infrastructure/remoteindex/index.go:76-98 | without a failed listing or a cancellation there is an answer; a failed listing yields none, and so no partial index |
| Chunks.ChunksPartition | pkg/infrastructure/kdriveapi/upload_session.go:79-86 | chunks are contiguous, no longer than a chunk, not empty unless the body is, and cover the body |
| Chunks.PiecesAssemble | pkg/infrastructure/kdriveapi/upload_session.go:79-102 | put together in order of their numbers they are the body |
| Chunks.TotalIsRightIff | pkg/infrastructure/kdriveapi/upload_session.go:46-49 | in 64 bits the number of chunks is right exactly as long as rounding up does not overflow |
| Chunks.OffsetsFit | pkg/infrastructure/kdriveapi/upload_session.go:81-86 | then no offset or length overflows |
| Sessions.StartWithRetries | pkg/infrastructure/kdriveapi/upload_session.go:293-335 | a token of a new empty session, or none; no other session changes; asked again only after a transient answer and never more than the retries allow, and none exactly if the last answer was final or all were transient |
| Sessions.ChunkWithRetries | pkg/infrastructure/kdriveapi/upload_session.go:214-235 | sent once or many times, a chunk is stored as one chunk; acknowledged means stored; attempts as for the start |
| Sessions.FinishWithRetries | pkg/infrastructure/kdriveapi/upload_session.go:237-271 | the session is closed with its chunks in order, or as it was; it may be asked for only when it has all chunks; attempts as for the start |
| Sessions.SendInOrder | pkg/infrastructure/kdriveapi/upload_session.go:126-154 | on success all chunks are stored and the hashes are those of the chunks in order; each chunk is attempted as `Sessions.ChunkWithRetries` does, and a failure means that one of them failed so, a read did or the body is short |
| Sessions.SendInParallel | pkg/infrastructure/kdriveapi/upload_session.go:65-113 | the same for any interleaving of attempts under the limit, so the total hash is the sequential one |
| Sessions.RunAll | pkg/infrastructure/kdriveapi/upload_session.go:79-107 | every chunk handed to a goroutine, at most the limit at once, and waited for |
| Sessions.Spawn | pkg/infrastructure/kdriveapi/upload_session.go:88-99 | a goroutine reads its chunk and notes its hash at its number |
| Sessions.GoOn | pkg/infrastructure/kdriveapi/upload_session.go:293-335 | one more attempt of some goroutine |
| Sessions.Upload | pkg/infrastructure/kdriveapi/upload_session.go:33-163 | success means closed with the body; whatever is closed is right; finish is not sent before all chunks are acknowledged; a failure after the start sends one request to cancel if and only if the context is live then, and otherwise leaves the session open, or closed; no request is made more often than allowed; a failure means that a request ended for good, a read failed, the body is short, or some request got a transient answer in all its attempts |
| Sessions.GivenUpIsCancelledIff | pkg/infrastructure/kdriveapi/upload_session.go:273-291 | for any requests before it, giving up sends a request to cancel exactly if the context is live; if not the session is not cancelled, and stays open unless it was asked to finish |
| Sessions.LeftOpenExample | pkg/infrastructure/kdriveapi/upload_session.go:102-105 | a concrete upload whose context is cancelled during a chunk: the session stays open and no request to cancel is sent |
| WriteHandles.WriteHandle.TruncateTo | pkg/presentation/fuse/file.go:241-251 | realises the truncate step, a refused resize included; what the steps make of the file is `WriteHandles.HandleIsPosixFile` |
| WriteHandles.WriteHandle.SeedLocked | pkg/presentation/fuse/file.go:289-308 | realises the seeding step, a broken download included; what the steps make of the file is `WriteHandles.HandleIsPosixFile` |
| WriteHandles.WriteHandle.Write | pkg/presentation/fuse/file.go:273-287 | realises the write step, one cut short by the disk included, and says whether it got through; what the steps make of the file is `WriteHandles.HandleIsPosixFile` |
| WriteHandles.WritesIff | pkg/presentation/fuse/file.go:273-308 | a write gets through exactly if the handle is open, the disk takes all of it and the old content is there, comes, or is not needed |
| WriteHandles.WriteHandle.Flush | pkg/presentation/fuse/file.go:310-320 | realises the flush step; it answers ok exactly if there was nothing to commit or the drive took it; that it commits is `WriteHandles.FlushCommits` |
| WriteHandles.FlushCommits | pkg/presentation/fuse/file.go:310-320 | in an orderly run, after a write, an accepted flush leaves exactly one upload, the POSIX content; a refused one leaves none and the next can still commit |
| WriteHandles.WriteHandle.CommitLocked | pkg/presentation/fuse/file.go:322-361 | realises the commit step; success means uploaded; what the steps make of the file is `WriteHandles.HandleIsPosixFile` |
| WriteHandles.WriteHandle.Release | pkg/presentation/fuse/file.go:363-398 | realises the release step; what the steps make of the file is `WriteHandles.HandleIsPosixFile` |
| WriteHandles.ReleaseCloses | pkg/presentation/fuse/file.go:363-398 | after a release nothing is written or uploaded any more, whatever is called |
| WriteHandles.OneUploadAtMost | pkg/presentation/fuse/file.go:313-380 | whatever is called, at most one upload, and none unless a write got through |
| WriteHandles.HandleIsPosixFile | pkg/presentation/fuse/file.go:222-239 | in an orderly run the uploaded body is the content of a POSIX file after the same calls (POSIX.1-2017, pwrite() and ftruncate()), and it is uploaded by the last release if anything was written |
| WriteHandles.EarlyFlushIsHarmless | pkg/presentation/fuse/file.go:310-312 | a flush before the first write changes nothing that follows |
| WriteHandles.TruncateBeforeSeedingIff | pkg/presentation/fuse/file.go:243-251 | truncating an unseeded edit keeps the right content exactly if the kept bytes are zero |
| WriteHandles.BrokenSeedIff | pkg/presentation/fuse/file.go:302-306 | a seed that broke off and is taken up again is right exactly if no byte had arrived |
| WriteHandles.TornWriteIff | pkg/presentation/fuse/file.go:279-284 | a write cut short is reported as failed, and the content is right exactly if the bytes that got there change nothing |
| WriteHandles.TruncateRefusedIff | pkg/presentation/fuse/file.go:248-250 | a refused resize is taken for done, and the content is right exactly if the working file had that size already |
| WriteHandles.LateWritesAreLostIff | pkg/presentation/fuse/file.go:285-319 | after a commit the drive has the content of later calls exactly if they changed nothing |
| Decimals.ParsePrinted | pkg/infrastructure/manifest/store.go:69-75 | every 64-bit number, and no other, reads back from its decimal |
| Decimals.OtherSpellings | pkg/infrastructure/manifest/store.go:69-75 | a plus sign and leading zeros do not matter, a minus sign negates, and what is out of 64 bits is refused |
| Decimals.NumbersAreDigits | pkg/infrastructure/manifest/store.go:69-75 | nothing but digits, one or more, with at most one sign before them is a number |
| Decimals.DecimalIsInjective | pkg/infrastructure/contentcache/disk.go:45-47 | different numbers print differently |
| Ordering.Sort | pkg/infrastructure/manifest/store.go:124 | sorted in byte order, the same strings |
| Ordering.SortedSetIsUnique | pkg/infrastructure/manifest/store.go:118-126 | a set of paths has one sorted listing |
| Store.ParseLine | pkg/infrastructure/manifest/store.go:60-80 | realises `Parsed`; which lines are records is `StoreReading.RecordLine` and `StoreReading.TooFewFields` |
| Store.ReadLine | pkg/infrastructure/manifest/store.go:35-51 | realises `Meaning`; which lines are skipped, records or errors is `StoreReading.PlainLines`, `StoreReading.HeaderLine`, `StoreReading.RecordLine` and `StoreReading.TooFewFields` |
| StoreReading.PlainLines | pkg/infrastructure/manifest/store.go:33-49 | a line over the limit is an error, a carriage return at its end does not count, empty lines and comments are passed over |
| StoreReading.HeaderLine | pkg/infrastructure/manifest/store.go:40-46 | a header is an error exactly if its version, white space around it aside, is not v1 |
| StoreReading.TooFewFields | pkg/infrastructure/manifest/store.go:60-67 | a line with fewer than five fields is an error |
| StoreReading.RecordLine | pkg/infrastructure/manifest/store.go:60-80 | any other line is the record of its path, with the four numbers in their places, exactly if these are 64-bit numbers and the path is not empty; otherwise an error |
| Store.Load | pkg/infrastructure/manifest/store.go:18-58 | the lines' records, the later ones winning, or an error at the first bad line; empty for a missing file |
| StoreReading.LoadedIs | pkg/infrastructure/manifest/store.go:35-57 | a file loads exactly if no line of it is an error, and the entry of a path is that of its last record |
| Store.SortedKeys | pkg/infrastructure/manifest/store.go:118-126 | the paths, each once, sorted |
| Store.Save | pkg/infrastructure/manifest/store.go:82-95 | the header and one line a path, in order |
| StoreRoundTrip.FormatExample | pkg/infrastructure/manifest/store.go:82-116 | the file of one entry, byte for byte |
| StoreRoundTrip.FieldsOfLine | pkg/infrastructure/manifest/store.go:60-64 | a line splits into what was printed, whatever tabs the path holds |
| StoreRoundTrip.LoadsBackIff | pkg/infrastructure/manifest/store.go:30-57 | a saved manifest loads as itself exactly if every path is not empty, has no newline, does not end in a carriage return and leaves its line within the limit |
| StoreRoundTrip.TextIsUnique | pkg/infrastructure/manifest/store.go:82-84 | a manifest has one text |
| StoreRoundTrip.SaveLoadSave | pkg/infrastructure/manifest/store.go:91-95 | saving what was loaded writes the same bytes |
| DiskCaching.NameIsInjective | pkg/infrastructure/contentcache/disk.go:45-47 | two versions of a file, or two files, never share a name |
| DiskCaching.SortByUse | pkg/infrastructure/contentcache/disk.go:163 | by last use, the same files |
| DiskCaching.DiskCache.List | pkg/infrastructure/contentcache/disk.go:131-156 | every file once, and the sum of the sizes |
| DiskCaching.DiskCache.EvictIfNeeded | pkg/infrastructure/contentcache/disk.go:126-176 | removes a minimal prefix of the last-use order, passing over what cannot be removed: only if room is needed, the oldest first, and no more than needed; an error only if the directory cannot be listed |
| DiskCaching.DiskCache.Open | pkg/infrastructure/contentcache/disk.go:72-124 | a hit is touched and returned; a miss makes room, downloads and stores; and what is left and answered when a call to the file system fails on the way |
| DiskCaching.BudgetKeptIff | pkg/infrastructure/contentcache/disk.go:126-176 | storing a body of the announced size keeps the budget exactly if it fits beside the files that could not be removed; with none of these, if it fits the budget |
| DiskCaching.NeverOverBudget | pkg/infrastructure/contentcache/disk.go:37 | from an empty directory on, the stored bytes never exceed the budget, whatever fails but removals |
| DiskCaching.HitReturnsStored | pkg/infrastructure/contentcache/disk.go:26-27 | a hit returns the bytes stored by the last miss for that id and mtime, and the recorded use is the last one, unless a call for the file went wrong in between |
| DiskCaching.OpenStores | pkg/infrastructure/contentcache/disk.go:72-124 | when nothing fails, a miss stores what it downloaded under its name and drops nothing that fits beside it; a hit returns what is stored and only notes the use |

## Left out

- Edits of either tree while a run is on its way, and duplicate names in a remote folder: the code promises nothing there.
- Files that others move out of the synced folder: the flat model of the remote tree does not see them, so an overwrite by their id fails in it.
- A crash in the middle of a download, which leaves a file with a temporary name in the local tree for the next walk to find; a crash in the middle of a save, which leaves one beside the manifest.
- TwoWay.RunRefinesMerge: requires that a remote file that looks, by size and mtime, as recorded has the recorded id, because the planner compares no ids and acts by them; and that nothing remote or recorded lies in a directory the walk leaves out.
- TwoWayCrash.NoLostUpdate: the edits between runs leave that assumption true: others do not put a file in the place of a recorded one that has its size and mtime and another id.
- PushRecovery.CrashesDoNotMatter: requires that recorded ids name the file at their own path, if any, because overwrites and deletes go by id alone; and the conditions under "What holds".
- TwoWayFixpoint.NothingLeftToDo: is about runs with deletes allowed; with deletes turned off the same deletes are planned again.
- Chunks.TotalIsRightIff: for chunk sizes up to 2^62, far above the fixed 16 MiB.
- Sessions.Upload: a finish that took effect but whose answer was lost is reported as a failure, as the code does; that the session closed right is what is stated. A start whose answer is lost leaves an open session nobody cancels.
- Sessions.SendInParallel: once one goroutine has failed the code cancels the requests of the others; in the model they may still get through.
- DiskCaching.DiskCache.Open: concurrent misses, and a temporary file that a failed download leaves because it cannot be removed, are not modelled.
- MoveEffect.MoveIsEffect: for a drive that reports parent ids and refuses to move or rename a file onto a taken name; the flat model of a push takes the same for granted.
- Moving.Move: whether the drive accepts a move into the folder the file is in already, which is asked for when parent ids are omitted, is left to the drive; the model lets it succeed or fail.
- Float rounding in the deletion threshold: real numbers.
- xxh3 and the hash over chunk hashes: any functions.
- Paths with ".." segments in the resolver, which the code asks its callers not to pass.
- HTTP, JSON, backoff times, the FUSE plumbing around the write handle, read handles, the command line, configuration, metrics and logging, and the time-based listing cache: I/O or easy members.
- The local walk itself: the trees it reads are maps, and what it skips is `Paths.Pruned`.
