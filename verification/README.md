# KArkive: a verified model

KArkive turns a `Backup` or `Restore` custom resource into a CronJob whose pods run a pipeline of
containers. All containers of a pod start at once and coordinate only through marker files on a
shared volume. This project models the three parts of KArkive that carry hard properties and proves
those properties for every input, every interleaving and every reachable state.

**The marker-file protocol** (`Protocol*.dfy`, `Polling.dfy`, `BackupRun.dfy`, `RestoreRun.dfy`,
`BackupSuccess.dfy`, `RestoreChoice.dfy`, `PodRunLaws.dfy`, `RoundTrip.dfy`, `Retention.dfy`,
`BackupNames.dfy`, `Artifacts.dfy`). A pod is a transition system in which every file test, touch,
unlink, wake-up from `sleep`, clock tick and fault is one action. The number of stages is a
parameter, so one proof covers backup pods with and without S3 and restore pods. `ProtocolProgress`
builds runs stage by stage and says exactly from which states job-done can still be reached, and
`ProtocolDeadline` that the time bounds are exact. `BackupRun` and `RestoreRun` add what the stages
do to files, `retained/`, S3 and the target database, with tools that may stop half way and leave
partial files behind; gzip and gpg are free constructors. `BackupSuccess` says exactly what a
successful backup may leave, `RestoreChoice` which objects a restore may restore. `Retention`
follows the data volume over any history of runs.

**The SQL dump filter** (`Sed.dfy`, `DumpFilter.dfy`). The deletion scripts of `filter_dump` run
under the range rules of the section "Addresses in sed" of the POSIX.1-2017 `sed` utility, with
regular expressions as arbitrary predicates on lines.

**The reconcilers and the objects they build** (`ReconcileModel.dfy`, `ReconcileLaws.dfy`,
`ReconcileOutcomes.dfy`, `Controller.dfy`, `StatusCalc.dfy`, `ClusterIsolation.dfy`,
`OwnedNames.dfy`, `ClaimSize.dfy`, `JobStatus.dfy`, `SourcePath.dfy`, `PodSpec.dfy`,
`Validation.dfy`, `PodBuild.dfy`, `PodLaws.dfy`, `EnvMeaning.dfy`, `PodMeaning.dfy`,
`ScratchDir.dfy`). One reconcile is a function of the cluster and of the faults the API injects at
each call; `Controller` is the step-by-step code, proved equal to it. `ClusterIsolation` interleaves
the single API calls of any number of reconcilers with each other and with outsiders. `PodSpec` is
what the resource builders compute, `PodBuild` the code that fills the objects, `PodLaws` shows that
every accepted CR compiles to the protocol that the first part is about, and `EnvMeaning` and
`PodMeaning` that the scripts read in it what the spec says.

Code that updates state step by step is modelled by classes and methods with loops, proved against
specification functions; the properties are lemmas about those functions. The concurrent scripts are
modelled as transition systems.

## Findings

Properties that one would expect and that do not hold, each with the exact condition:

- Encrypt without S3 writes two markers. After a restart between the two touches no continuation
  completes; such a run exists (`ProtocolProgress.FatalRestartIsReached`), and this is the only
  kind of state from which a pod with restarts cannot complete (`ProtocolProgress.CompletionIff`).
  README.md:195 of KArkive says that an in-place restart wipes the markers; it does not
  (`ProtocolOrder.DoneMarkersNeverLost`).
- A one-line `ALTER FUNCTION …;` on a pgAudit function takes the next statement with it
  (`DumpFilter.OneLineAlterFunctionOverruns`). Where unwanted statements are one line long or end
  at their only line ending in `;`, and everything else is arbitrary, the filter removes exactly
  the unwanted statements if and only if no wanted one begins while a range is open
  (`DumpFilter.FilterExactIff`).
- A named backup file that exists need not be the one restored: if `mc stat` fails, the fallback,
  which is on by default, takes the latest (`RestoreChoice.FallbackRestoresAnother`). Every
  successful run restores the named file if and only if the fallback is off, or can settle on no
  other restorable archive, or the target is refused anyway (`RestoreChoice.NamedFileIff`). A
  listing that breaks off counts as far as it got, so the "latest" may be an older one
  (`RestoreChoice.RestoredIff`).
- A target that is not empty can be touched although dropping is not allowed: Redis looks at one
  logical database and replaces all (`RestoreChoice.HiddenKeysAreReplaced`), PostgreSQL counts
  tables, views, sequences and foreign tables only. Where dropping is not allowed and there is
  something to restore, every run leaves a non-empty target alone if and only if the test sees
  something in it (`RestoreChoice.TrespassIff`).
- An archive of another Backup in a nested prefix is found like one of one's own, and the
  directory's name, not the time, decides which is the latest (`BackupNames.NestedOutranksTime`).
- The stages of a backup pod see each other's markers if and only if `spec.dataDir` is unset or an
  absolute path that leads to or below `/backup/data` once cleaned, because the volume is mounted
  at that fixed path (`ScratchDir.BackupScratchIsShared`, with `ScratchDir.DataDirLeaves`). Those
  of a restore pod do if and only if `spec.workdir` is unset, or absolute and, cleaned, neither
  `/tmp` nor `/run/secrets/gpg` (`ScratchDir.RestoreScratchIsShared`, with
  `ScratchDir.WorkdirIsCovered`).
- After `spec.engine` changes, archives of the old engine are never pruned
  (`Retention.OldEngineIsNeverPruned`); `Retention.RetainedIsHistory` is the exact condition.
- With several databases under one S3 path the "latest" backup is the newest of the database with
  the greatest name, not the newest of all (`BackupNames.LatestOfSeparate`); for any databases
  `BackupNames.LatestOfMany` says which it is.
- `deleteIfController` deletes by name only, so it can remove another CR's object
  (`ClusterIsolation.DeleteRace`). The reconcilers by themselves never do
  (`ClusterIsolation.ReconcilersAreIsolated`). With outsiders they cannot come to it if and only
  if nobody outside, between a reconciler's ownership test and its delete, hands the object to
  another controller, or deletes or orphans it although another CR may take it
  (`ClusterIsolation.SafeIffNothingTaken`).
- A Job that completed after a failed pod is reported as failed
  (`JobStatus.StatusFollowsTheJobs`).

## Model

| member | source | states |
|---|---|---|
| `ProtocolOrder.MarkerOrder` | internal/pipeline/scripts/common.sh:68-96 | in every run of an n-stage pod, restarts, kills and timeouts included: done-markers are closed downwards, job-done comes last, exit 0 implies job-done, and cleanup's wipe never meets a done-marker |
| `ProtocolOrder.DoneMarkersNeverLost` | internal/pipeline/scripts/backup/cleanup.sh:10-14 | no done-marker is lost while the scratch directory stands, restarts included |
| `ProtocolOrder.WorkIsSerial` | internal/pipeline/scripts/backup/compress.sh:9-37 | while a stage works, exactly the earlier stages have their markers and no other stage works |
| `ProtocolOrder.SweepFindsOnlyFailed` | internal/pipeline/scripts/backup/cleanup.sh:14-14 | `rm -f .step-*` runs only when no done-marker was ever written |
| `ProtocolOrder.InvAlways` | internal/pipeline/scripts/common.sh:138-182 | the protocol invariant holds in every reachable state |
| `ProtocolOrder.RestartBetweenTouchesHangs` | internal/pipeline/scripts/backup/encrypt.sh:45-59 | from every state between encrypt's two touches without S3, a restart of it is fatal: no continuation ever writes job-done or exits 0 |
| `ProtocolProgress.CompletionIff` | internal/pipeline/scripts/backup/encrypt.sh:45-59 | with restarts, some continuation writes job-done if and only if it is written already, or the last stage has not left a marker of its own, or stands between its two touches |
| `ProtocolProgress.FatalRestartIsReached` | internal/pipeline/scripts/backup/encrypt.sh:45-59 | for every number of stages, a run from the start that ends with the fatal restart, after which nothing completes |
| `ProtocolProgress.StagesGoOn` | internal/pipeline/scripts/common.sh:68-96 | from any front of markers the remaining stages can go on one after the other up to the touch of job-done, a stale `.step-failed` notwithstanding |
| `ProtocolFailure.FailedExcludesJobDone` | internal/pipeline/scripts/common.sh:18-23 | without restarts and timeouts `.step-failed` and `.step-job-done` never coexist, and with `.step-failed` nobody has exited 0 |
| `ProtocolFailure.ClearErasesNoFailure` | internal/pipeline/scripts/common.sh:91-96 | neither `clear_step_failed` nor cleanup's wipe ever finds a failure to erase |
| `ProtocolFailure.FailureIsFinal` | internal/pipeline/scripts/backup/pgdump.sh:9-33 | after `.step-failed` job-done is never written and no container ever exits 0 |
| `ProtocolFailure.FailureStopsPeers` | internal/pipeline/scripts/common.sh:143-172 | after `.step-failed` no stage works any more, and every waiting or holding container that looks for it leaves with a failure |
| `ProtocolFailure.FailedRunEndsInFailure` | internal/pipeline/scripts/common.sh:18-23 | in a run that ever saw `.step-failed` and in which every container has exited, every one of them exited non-zero |
| `ProtocolFailure.FailureStays` | internal/pipeline/scripts/common.sh:18-23 | `.step-failed` is never removed once written |
| `ProtocolFailure.BlameAlways` | internal/pipeline/scripts/common.sh:50-50 | every failed or failing script traces back to one first failed stage whose marker is missing |
| `ProtocolTiming.LoopsAreBounded` | internal/pipeline/scripts/common.sh:138-182 | a wait sleeps at most 43201 times and a hold at most 17281 times |
| `ProtocolTiming.NoTimeoutWithinADay` | internal/pipeline/scripts/common.sh:142-180 | if job-done came in the first 86400 s, no stage timed out or is about to |
| `ProtocolTiming.TeardownIsSeenByAll` | internal/pipeline/scripts/restore/pgrestore.sh:213-220 | if holding peers poll at intervals under 20 s, every peer has seen job-done and exited 0 before the scratch directory goes |
| `ProtocolDeadline.TimeoutIff` | internal/pipeline/scripts/common.sh:162-182 | a stage can have timed out although job-done was written at second t if and only if t is 86400 or more |
| `ProtocolDeadline.TeardownIff` | internal/pipeline/scripts/restore/pgrestore.sh:213-220 | peers that poll at most a given gap apart can miss job-done before the directory goes if and only if the gap is 20 s or more |
| `ProtocolTermination.RunsAreBounded` | internal/pipeline/scripts/common.sh:138-182 | without restarts a pod takes at most 362930 script steps per container |
| `ProtocolTermination.LiveScriptsMove` | internal/pipeline/scripts/common.sh:138-182 | no live script is ever blocked |
| `Polling.Poll` | internal/pipeline/scripts/common.sh:138-160 | the loop ends at the first round that sees the marker or a failure, the marker winning a tie, after limit + 1 sleeps at the latest |
| `Polling.WaitFor` | internal/pipeline/scripts/common.sh:138-160 | success exactly if the marker shows within 43201 tests before any failure; at most 86402 s of sleep |
| `Polling.HoldUntilJobDone` | internal/pipeline/scripts/common.sh:162-182 | the same for job-done, 17281 tests, at most 86405 s of sleep |
| `BackupRun.ExitZeroMeansArchived` | internal/pipeline/scripts/backup/encrypt.sh:27-59 | if any container of a backup pod exits 0, all markers are there, `retained/` is the pruned directory plus one archive, the scratch directory holds that file alone, and S3 received exactly that file; the archive is the encrypted, compressed sequence of the lines of a completed pg_dump that do not set the transaction timeout |
| `BackupSuccess.ArchivedIff` | internal/pipeline/scripts/backup/encrypt.sh:27-59 | for every name and dump, with and without S3, some run in which every container exits 0 archives it; what `retained/` may then hold beside it is exactly any selection of the old archives with all that are not expired |
| `BackupSuccess.SuccessfulRun` | internal/pipeline/scripts/backup/pgdump.sh:9-56 | the run, act by act, for every name, dump and set of expired archives that cleanup removes |
| `Sed.DeleteLeavesUnmatched` | internal/pipeline/scripts/backup/pgdump.sh:35-35 | the deletion leaves exactly the lines that do not match, in order |
| `BackupRun.PodInvAlways` | internal/pipeline/scripts/backup/s3-sync.sh:9-38 | what scratch, `retained/` and S3 hold at every moment of every run |
| `BackupRun.PodRunRefinesProtocol` | internal/pipeline/scripts/backup/pgdump.sh:9-56 | every pod run is a run of the marker protocol |
| `RestoreRun.TargetIsSafe` | internal/pipeline/scripts/restore/pgrestore.sh:106-139 | every act that creates, drops, hands over or loads the target comes after cleanup, fetch, decrypt and extract, and if the engine's emptiness test sees something in it only if dropping is allowed; a drop meets visible content; other acts leave it alone |
| `RestoreRun.RefusalIsSafe` | internal/pipeline/scripts/restore/redisrestore.sh:50-61 | a target the test sees something in is never touched without permission, and the pod never succeeds |
| `RestoreChoice.TrespassIff` | internal/pipeline/scripts/restore/pgrestore.sh:109-134 | some run touches a non-empty target without permission if and only if the test sees nothing in it and there is something to restore |
| `RestoreChoice.HiddenKeysAreReplaced` | internal/pipeline/scripts/restore/redisrestore.sh:126-177 | a successful run that replaces a Redis target with keys in other logical databases, dropping not allowed |
| `RestoreRun.ExitZeroMeansRestored` | internal/pipeline/scripts/restore/fetch.sh:45-75 | if any container exits 0, fetch settled on the named file or, with the fallback on, on the latest key, nested ones included, of what the listing got to; a Redis target holds that object, decrypted and decompressed, as it is; a PostgreSQL target holds a subsequence of its lines with no unwanted line, which on well-formed statements is all but the unwanted statements; beside it only what was hidden in a database found empty |
| `RestoreRun.SelectedIff` | internal/pipeline/scripts/restore/fetch.sh:15-75 | fetch may settle on exactly the named object or, with the fallback on, the last in byte order of the listed objects whose last part fits the engine's pattern |
| `RestoreRun.PodRunRefinesProtocol` | internal/pipeline/scripts/restore/fetch.sh:35-37 | every restore pod run is a run of the marker protocol over the same states |
| `RestoreChoice.RestoredIff` | internal/pipeline/scripts/restore/fetch.sh:15-75 | some successful run restores a file if and only if fetch may settle on it, it can be decrypted and decompressed, and the engine accepts the target |
| `RestoreChoice.NamedFileIff` | internal/pipeline/scripts/restore/fetch.sh:45-60 | with a named, existing file every successful run restores it if and only if the fallback is off, or can settle on no other restorable archive, or the target is refused |
| `RestoreChoice.FallbackRestoresAnother` | internal/pipeline/scripts/restore/fetch.sh:48-55 | for every other archive the fallback may settle on, a successful run that restores it although the named file exists |
| `RestoreChoice.FallbackRestoresNewest` | internal/pipeline/scripts/restore/fetch.sh:61-75 | without a named file, if `mc find` did not break off and found one database's archives, the newest upload is restored |
| `PodRunLaws.RestorePodIsLawful` | internal/pipeline/scripts/restore/pgrestore.sh:213-220 | restore pod runs keep the failure and timing laws, and timely peers see job-done before the work directory goes |
| `PodRunLaws.BackupPodIsLawful` | internal/pipeline/scripts/common.sh:138-182 | backup pod runs keep the failure and timing laws |
| `RestoreRun.PodInvAlways` | internal/pipeline/scripts/restore/decrypt.sh:9-24 | what the work directory and the target hold at every moment of every run, whichever object fetch settled on |
| `RoundTrip.RestoredBytesAreDumpedBytes` | internal/pipeline/scripts/restore/extract.sh:9-18 | a successful restore that settled on the `.gz.gpg` object of a successful backup run used the same passphrase, and the target was loaded from the lines of that run's dump that do not set the transaction timeout: all of them for Redis, the filtered ones for PostgreSQL |
| `RoundTrip.NewestDumpIsRestored` | internal/pipeline/scripts/restore/fetch.sh:15-34 | a fallback restore loads the target in that way from the dump of the newest backup run whose upload is listed |
| `Retention.RetainedIsHistory` | internal/pipeline/scripts/backup/encrypt.sh:36-38 | after any history, `retained/` holds a file if and only if it was copied in and has since been neither written over nor removed as expired by a cleanup of its engine |
| `Retention.LastCleanupDecides` | internal/pipeline/scripts/backup/cleanup.sh:15-31 | with one engine and retention, an archive that the last cleanup could remove is there exactly if its whole days of age then did not exceed the retention |
| `Retention.CleanupSpares` | internal/pipeline/scripts/backup/cleanup.sh:42-49 | a cleanup keeps `retained/`, `logs/`, `lost+found`, the pod's own directory with all its files, what `rm -rf` could not remove and nothing else, and every file that has not expired |
| `Retention.LogsArePruned` | internal/pipeline/scripts/common.sh:53-66 | of `logs/` a cleanup removes exactly the expired `.log` files, where log files are kept, and expired stray archives |
| `Retention.StraysArePruned` | internal/pipeline/scripts/backup/cleanup.sh:32-41 | at the volume's root and in `lost+found` exactly the expired archives go, of whichever engine |
| `Retention.WrittenArchivesAreFound` | internal/pipeline/scripts/backup/cleanup.sh:21-26 | the archives a pod writes match the pattern of its cleanup |
| `Retention.OldEngineIsNeverPruned` | internal/pipeline/scripts/backup/cleanup.sh:20-31 | archives of another engine survive every cleanup |
| `Retention.ArchiveNamesAreSeparate` | internal/pipeline/scripts/backup/cleanup.sh:21-26 | no name matches the patterns of two engines |
| `Retention.SweptOneByOne` | internal/pipeline/scripts/backup/cleanup.sh:19-49 | the pruning and removing steps in sequence are the one-step description of a cleanup |
| `Retention.DataVolume.Cleanup` | internal/pipeline/scripts/backup/cleanup.sh:15-49 | the loops over expired files and old directories compute that description, with any `rm` failing and the script carrying on |
| `Retention.DataVolume.Prune` | internal/pipeline/scripts/backup/cleanup.sh:27-31 | one `find … -mtime +N` loop removes exactly the expired matches of one directory that `rm` can remove |
| `Retention.DataVolume.PruneStrays` | internal/pipeline/scripts/backup/cleanup.sh:34-41 | expired archives outside `retained/` and the pod's directory go, nothing else |
| `Retention.DataVolume.RemoveScratch` | internal/pipeline/scripts/backup/cleanup.sh:44-49 | every directory that is not spared goes, as far as `rm -rf` can |
| `Retention.DataVolume.Keep` | internal/pipeline/scripts/backup/encrypt.sh:36-38 | the copy lands in `retained/` under its name, replacing an earlier one |
| `BackupNames.FindLatest` | internal/pipeline/scripts/restore/fetch.sh:15-34 | the greatest matching name of a listing in byte order, none exactly if nothing matches |
| `BackupNames.LatestIsUnique` | internal/pipeline/scripts/restore/fetch.sh:23-26 | there is at most one latest name |
| `BackupNames.NameOrderIsTimeOrder` | internal/pipeline/scripts/backup/pgdump.sh:17-17 | for one prefix and database, byte order of names is order of time to the minute |
| `BackupNames.LatestIsNewest` | internal/pipeline/scripts/restore/fetch.sh:15-34 | hence the latest name is the newest backup, and conversely |
| `BackupNames.NameOrder` | internal/pipeline/scripts/restore/fetch.sh:23-26 | the order of any two backups' names in terms of their databases and times |
| `BackupNames.DatabaseOutranksTime` | internal/pipeline/scripts/restore/fetch.sh:23-26 | names of databases neither of which extends the other by a dash are ordered by the databases with their dash, whatever the times |
| `BackupNames.DashExtension` | internal/pipeline/scripts/restore/fetch.sh:23-26 | an extension by a dash and a non-digit is ordered by that character, whatever the times |
| `BackupNames.LatestOfMany` | internal/pipeline/scripts/restore/fetch.sh:15-34 | which backup of a listing of any databases has the latest name, as an if-and-only-if |
| `BackupNames.LatestOfSeparate` | internal/pipeline/scripts/restore/fetch.sh:15-34 | with separate databases it is the newest backup of the greatest database, and only that |
| `BackupNames.NestedIsFound` | internal/pipeline/scripts/restore/fetch.sh:23-26 | an archive in a nested prefix matches the pattern by its last part |
| `BackupNames.NestedOutranksTime` | internal/pipeline/scripts/restore/fetch.sh:23-26 | a nested key and a flat one are ordered by directory and flat name, whatever the times |
| `BackupNames.NestedHidesFlat` | internal/pipeline/scripts/restore/fetch.sh:23-26 | a directory that comes after a flat archive's name keeps it from being the latest |
| `BackupNames.PatternsAreSpelled` | internal/pipeline/scripts/backup/cleanup.sh:21-26 | the archive pattern of each engine, spelled out |
| `BackupNames.GlobsFollowTheFile` | internal/pipeline/scripts/backup/compress.sh:13-31 | for every engine, database name and suffix, each stage's pattern matches the name the stage before wrote |
| `Sed.ScriptIsPipe` | internal/pipeline/scripts/restore/pgrestore.sh:33-48 | the multi-command script with its range states equals its commands run in sequence, for all patterns and inputs |
| `Sed.PipeOnlyDeletes` | internal/pipeline/scripts/restore/pgrestore.sh:33-82 | the output is a subsequence of the input with no deletion or range-start match left |
| `Sed.ScriptIsIdempotent` | internal/pipeline/scripts/restore/pgrestore.sh:33-82 | filtering the output changes nothing |
| `Sed.ScriptRemovesExactlyTargets` | internal/pipeline/scripts/restore/pgrestore.sh:33-48 | on well-formed statements exactly the statements with a matching header go |
| `Sed.OneLineHeaderOverruns` | internal/pipeline/scripts/restore/pgrestore.sh:39-44 | a one-line range header deletes up to the next end line, or to the end |
| `Sed.ScriptExactIff` | internal/pipeline/scripts/restore/pgrestore.sh:33-48 | where the statements a script is after are one line long or end at their only end line and all others are arbitrary, the script removes exactly the former if and only if, for no command, one of the others begins while its range is open |
| `Sed.ScriptOverruns` | internal/pipeline/scripts/restore/pgrestore.sh:39-44 | in a whole script, the statement after a one-line range header is gone, whatever follows |
| `DumpFilter.StagesAreOneScript` | internal/pipeline/scripts/restore/pgrestore.sh:64-82 | the chosen filter stages in sequence equal one script |
| `DumpFilter.FilterIsCleanAndIdempotent` | internal/pipeline/scripts/restore/pgrestore.sh:64-82 | what psql is given is a clean subsequence of the dump and a fixed point |
| `DumpFilter.FilteredIsFiltered` | internal/pipeline/scripts/restore/pgrestore.sh:64-82 | stated over lines and patterns alone: the result is a subsequence of the dump without unwanted lines, and on well-formed statements all but the unwanted ones; the TimescaleDB patterns count exactly if some line creates or drops the extension or copies its catalog |
| `DumpFilter.FilterRemovesTheUnwanted` | internal/pipeline/scripts/restore/pgrestore.sh:33-62 | no client setting, pgAudit or TimescaleDB line that is to be stripped is left, and on well-formed statements exactly the statements that begin with one go |
| `DumpFilter.FilterExactIff` | internal/pipeline/scripts/restore/pgrestore.sh:33-82 | the same for filter_dump: with unwanted statements of that shape and arbitrary others, exactly the unwanted go if and only if no wanted one begins while a range is open |
| `DumpFilter.OneLineAlterFunctionOverruns` | internal/pipeline/scripts/restore/pgrestore.sh:44-44 | with the whole script a one-line ALTER FUNCTION and the statement after it are gone, whatever follows |
| `DumpFilter.Workdir.FilterDump` | internal/pipeline/scripts/restore/pgrestore.sh:64-82 | leaves the filtered dump and no intermediate file, everything else unchanged; if a sed, mv or rm stops, it stops there and only the scratch files may differ |
| `StatusCalc.WrittenIffDifferent` | internal/controller/backup_controller.go:230-276 | the status is written if and only if it differs from the stored one |
| `StatusCalc.RepeatedReportIsSilent` | internal/controller/status.go:59-81 | the same report at any later time writes nothing and records no event |
| `StatusCalc.OneNormalEventPerGeneration` | internal/controller/status.go:69-77 | over any sequence of reports no two Normal events are of one generation |
| `StatusCalc.StatusTellsTheJob` | internal/controller/status.go:21-57 | the new status carries the verdict on the last Job under the kind's condition type, with the Job's own reason and message where it has any and a transition time that moves exactly when the verdict does; conditions of foreign types stay |
| `StatusCalc.EventIff` | internal/controller/status.go:59-77 | an event is recorded if and only if the CR is new or its generation moved or, for a warning, the phase changed or the stored Ready condition said something else |
| `StatusCalc.StatusFields` | internal/controller/backup_controller.go:239-267 | phase, generation, holder and last Job come from the report; name and times of the CronJob too if there is one, and stay otherwise |
| `StatusCalc.SetConditionReportsChange` | internal/controller/status.go:24-57 | setting a condition reports a change exactly if the list changed |
| `Controller.SetStatusCondition` | internal/controller/status.go:56-56 | the search and the field updates compute the specified list and flag |
| `Controller.ComputeStatus` | internal/controller/backup_controller.go:239-275 | the field-by-field update computes the specified status, write and event decisions |
| `ReconcileLaws.SecondReconcileIsSilent` | internal/controller/backup_controller.go:73-174 | without faults a second reconcile writes nothing and records no event, however the first ended |
| `ReconcileLaws.ConflictIsSilent` | internal/controller/owned.go:51-61 | a conflict on an owned object leaves status and events alone and asks for a retry after 1 s |
| `ReconcileLaws.FailureIsReported` | internal/controller/backup_controller.go:176-184 | any other failure gives phase Error with the failing step's reason and message, and the error is returned |
| `ReconcileLaws.FailureNamesItsStep` | internal/controller/owned.go:43-49 | the reason is that of the first step that failed, all earlier ones having succeeded |
| `ReconcileLaws.ReadyMeansInPlace` | internal/controller/backup_controller.go:108-174 | under any faults, Ready is written only when ConfigMap, CronJob, required claim and available required holder are the CR's own and up to date and its unneeded holder and legacy objects are gone |
| `ReconcileOutcomes.ChangesNeedChecks` | internal/controller/backup_controller.go:86-120 | under any faults, if an object changes or Ready is written then the CR is accepted, no precondition refuses it, and every checked object exists with nothing wrong |
| `ReconcileOutcomes.UnmetCheckDecides` | internal/controller/backup_controller.go:97-120 | without faults the first unmet precondition decides: missing gives Pending, its reason and a retry after 30 s, a refusal or bad object gives Error with its reason and message; no object changes and events are warnings |
| `ReconcileOutcomes.IneligibleIsReported` | internal/controller/backup_controller.go:76-95 | a CR that is gone or going is left alone, an unsupported engine and a bad spec are reported, and no object changes |
| `ReconcileOutcomes.ReadyIsReached` | internal/controller/backup_controller.go:122-174 | without faults, with all preconditions met and no foreign owner in the way, the reconcile ends in Ready with everything in place if no holder is needed or it has a replica available, and else in Pending with a retry after 10 s |
| `ReconcileOutcomes.ConcludeCalmly` | internal/controller/owned.go:178-180 | one available replica of the holder is what Ready waits for |
| `ReconcileLaws.ReconcileIsContained` | internal/controller/owned.go:72-176 | a reconcile changes no Secret, no claim but its own and nothing another controller holds |
| `ReconcileLaws.StepsTwice` | internal/controller/owned.go:72-163 | run again on what they left, the steps end alike and write nothing |
| `ReconcileLaws.AllStepsSettle` | internal/controller/owned.go:72-127 | after a pass without failure every step's object is in its final state |
| `Controller.Client.CreateOrUpdate` | internal/controller/owned.go:78-86 | get, mutate, set owner or refuse, write if different, with a fault possible at each call |
| `Controller.Client.DeleteIfController` | internal/controller/owned.go:165-176 | deletes exactly an object this CR controls |
| `Controller.Client.EnsureOwned` | internal/controller/owned.go:72-127 | the ordered writes with early returns equal the step list |
| `Controller.Client.DeleteLegacyOwned` | internal/controller/owned.go:133-163 | legacy ConfigMap and CronJob go, the legacy claim stays |
| `Controller.Client.UpdateStatus` | internal/controller/restore_controller.go:195-241 | lists the Jobs, records the event and stores the status if needed |
| `Controller.Client.CheckAll` | internal/controller/restore_controller.go:76-100 | the loop computes the verdict of the preconditions in order, about which `ReconcileOutcomes.ChangesNeedChecks` and `ReconcileOutcomes.UnmetCheckDecides` speak |
| `Controller.Client.Fail` | internal/controller/restore_controller.go:156-164 | conflicts pass in silence, the rest becomes phase Error |
| `Controller.Client.ReconcileOwned` | internal/controller/restore_controller.go:102-154 | owned objects, legacy cleanup, holder, then the Ready status |
| `Controller.Client.ReconcileInner` | internal/controller/restore_controller.go:55-100 | the checks before the owned objects, with their phases and requeues |
| `Controller.Client.ReconcileCr` | internal/controller/backup_controller.go:68-71 | the entry point equals the model's reconcile |
| `ClusterIsolation.CallIsContained` | internal/controller/owned.go:165-176 | one API call leaves alone every object another controller holds, every Secret and the source claim |
| `ClusterIsolation.OthersNeverTouch` | internal/controller/owned.go:72-176 | over any interleaving of the calls of any CRs and outsiders who may create, update, re-own and delete, as long as nobody outside takes an object from under a delete, an object stays as it is until its own CR or somebody outside acts on it |
| `ClusterIsolation.ReconcilersAreIsolated` | internal/controller/owned.go:72-176 | without outsiders, over any interleaving of any reconcilers and with no further condition, no reconciler touches an object another CR controls |
| `ClusterIsolation.SecretsAndSourcesSurvive` | internal/controller/backup_controller.go:213-217 | Secrets, and claims that are no CR's own, source claims included, survive every call of every reconciler, whatever outsiders do to other objects |
| `ClusterIsolation.SafeIffNothingTaken` | internal/controller/owned.go:165-176 | from no state of a run can the reconcilers go on to delete another controller's object if and only if no act from outside in the run takes an object from under a delete |
| `ClusterIsolation.RobbedIffExposed` | internal/controller/owned.go:165-176 | from a state the reconcilers alone can go on to delete another controller's object if and only if some delete under way names an object that another controller holds, or that is gone or orphaned while another CR may take it |
| `ClusterIsolation.CallsKeepSafe` | internal/controller/owned.go:72-176 | no call of a reconciler brings a delete under way into that position |
| `ClusterIsolation.DeleteRace` | internal/controller/owned.go:166-172 | two runs in which it happens: after an outside delete and a re-creation, and after an outsider took the owner away and another CR adopted the object |
| `OwnedNames.LegacyMeetsLive` | internal/resources/names.go:18-30 | a legacy name of one CR is the live name of another |
| `OwnedNames.LiveNamesAreSeparate` | internal/resources/names.go:18-30 | live names of the two kinds never meet, nor a CR's legacy and live name |
| `OwnedNames.HolderNameTells` | internal/resources/runtime.go:26-32 | a holder is named after its claim, whole if that fits, else by its first 56 characters less the dashes they end in, and the suffix |
| `OwnedNames.HolderNameFits` | internal/resources/runtime.go:26-32 | holder names fit a DNS label |
| `OwnedNames.LongHolderNamesCollide` | internal/resources/runtime.go:26-32 | long names with the same 56 characters share a holder name |
| `OwnedNames.ShortHolderNamesDiffer` | internal/resources/runtime.go:26-32 | short names do not |
| `JobStatus.LastFinished` | internal/jobstatus/jobstatus.go:16-40 | the loop returns the first job of maximal finish time among those that match and finished, none exactly if there is none, the finish times being those the Jobs' own fields give |
| `JobStatus.FinishTime` | internal/jobstatus/jobstatus.go:66-82 | a Job has finished if and only if its completion time is set or some true Complete or Failed condition carries a transition time; the time is the completion time if set, else that of the first such condition |
| `JobStatus.SummaryTellsTheJob` | internal/jobstatus/jobstatus.go:43-64 | the summary, over the Job's fields: name, times, verdict, and reason and message of the first true condition that goes with the verdict |
| `JobStatus.FailureIsExplained` | internal/controller/status.go:33-55 | from the list of Jobs to the condition: a failed last Job is explained by the reason and message of its first true Failed condition, or by its name where they are missing |
| `JobStatus.ExportedSurvivesTheJob` | internal/metrics/collector.go:170-173 | a stored summary is exported also when its Job is gone, and without one the collector looks for itself |
| `PodMeaning.RecommendedLabels` | internal/resources/labels.go:27-42 | name, instance, component and part-of labels of a CR's Jobs |
| `PodMeaning.JobsAreFoundByTheirCr` | internal/controller/last_job.go:32-42 | a Job with a CR's labels is listed and matched by the reconcile of that CR in its namespace and by no other, and always by the collector |
| `JobStatus.FilteredListAgrees` | internal/jobstatus/jobstatus.go:16-40 | dropping jobs that do not count does not change the answer |
| `JobStatus.StatusAndMetricsAgree` | internal/controller/last_job.go:32-42 | the controller's label-filtered list and the collector's managed list give the same job |
| `JobStatus.MetricsAgreeAfterReconcile` | internal/metrics/collector.go:170-173 | right after a reconcile the stored summary the collector prefers is the one it would work out itself |
| `JobStatus.StatusFollowsTheJobs` | internal/jobstatus/jobstatus.go:43-95 | from the list of Jobs to the CR's condition: true exactly if the last finished Job has neither a failed pod nor a true Failed condition, unknown exactly if none has finished |
| `ClaimSize.RequestIsTheMaximum` | internal/resources/pvc.go:10-48 | over any sequence of sizes the request is their maximum, and access modes and class stay as created |
| `ClaimSize.Claim.Mutate` | internal/resources/pvc.go:10-36 | a new claim gets the whole spec |
| `ClaimSize.Claim.Expand` | internal/resources/pvc.go:39-48 | the request is raised, never lowered |
| `ClaimSize.Claim.Ensure` | internal/controller/owned.go:88-101 | one pass creates or expands |
| `SourcePath.ExcludesRoundTrip` | internal/pipeline/scripts/backup/pvcdump.sh:25-34 | splitting the rendered excludes file gives back the list exactly |
| `SourcePath.CleanedPathStaysInside` | internal/resources/pvcsource.go:29-38 | a validated path cleans to a relative path of ordinary segments, a fixed point, under the mount |
| `SourcePath.SplitJoin` | internal/resources/configmap.go:45-50 | joining and splitting lines are inverse |
| `SourcePath.PieceIff` | api/v1alpha1/validation.go:112-113 | the pieces of a split path are exactly what stands between separators |
| `ScratchDir.CleanLeadsThere` | internal/resources/pvcsource.go:29-38 | a cleaned path, absolute or relative, leads where the path itself leads, from every directory |
| `ScratchDir.SubPathLeadsThere` | internal/resources/pvcsource.go:29-38 | what a PVC backup reads below its mount is what spec.pvc.path names there |
| `Validation.BackupAcceptedIff` | api/v1alpha1/validation.go:14-50 | a Backup is accepted if and only if its schedule, source or database, storage, Secret, policies and runtime mode are in order, over the fields |
| `Validation.RestoreAcceptedIff` | api/v1alpha1/validation.go:53-96 | a Restore is accepted if and only if its schedule, database, S3 path, Secrets, policies and mode are in order and the engine is not pvc |
| `Validation.BackupFlawIsReal` | api/v1alpha1/validation.go:14-50 | the flaw a rejection names is there |
| `Validation.RestoreFlawIsReal` | api/v1alpha1/validation.go:53-96 | the same for a Restore |
| `PodLaws.BackupFollowsProtocol` | internal/resources/cronjob.go:51-84 | the containers of every Backup, in order, are the stages of the marker protocol: awaited, own and written markers agree stage by stage, with S3 on or off, and exactly the last one can write job-done |
| `PodLaws.RestoreFollowsProtocol` | internal/resources/restore_cronjob.go:41-67 | the same for every Restore |
| `PodLaws.EnvSaysS3` | internal/resources/configmap.go:26-26 | encrypt.sh sees S3 off exactly if the s3-sync container is left out |
| `PodLaws.MarkersAreFiles` | internal/pipeline/scripts/backup/encrypt.sh:9-10 | different markers are different files |
| `PodLaws.BackupPodIsClosed` | internal/resources/cronjob.go:110-279 | a validated Backup with an accepted config map compiles to a closed pod: each container has the login bindings and mounts its script uses and no others, every setting a script needs is there and not empty, and every mount names one declared volume |
| `PodLaws.RestorePodIsClosed` | internal/resources/restore_cronjob.go:94-212 | the same for a validated Restore, with the target's Secret and its configured keys |
| `ScratchDir.BackupScratchIsShared` | internal/resources/cronjob.go:204-230 | whatever working directories the images have, the stages share the marker directory if and only if spec.dataDir is unset or absolute and, cleaned, at or below the mount |
| `ScratchDir.DataDirLeaves` | internal/resources/cronjob.go:209-212 | a data directory that begins with the mount path and leaves it by `..` is not shared |
| `ScratchDir.RestoreScratchIsShared` | internal/resources/restore_cronjob.go:44-62 | the stages of a restore share theirs if and only if spec.workdir is unset, or absolute and, cleaned, neither /tmp nor /run/secrets/gpg, where a later mount covers it |
| `ScratchDir.WorkdirIsCovered` | internal/resources/cronjob.go:225-228 | with spec.workdir `/tmp/` the mount of /tmp covers the volume and the stages do not share |
| `PodLaws.BackupStorage` | api/v1alpha1/validation.go:33-48 | without S3 or with a holder the scratch volume is the CR's own claim; a source claim is mounted by the dump stage alone and read-only |
| `PodLaws.StagesFindTheDump` | internal/resources/engine.go:31-43 | what the dump container writes matches the pattern of every later stage |
| `PodLaws.AffinityFindsTheHolder` | internal/resources/runtime.go:34-65 | the affinity selects the CR's own holder pod, no other holder and no Job pod of any CR |
| `PodMeaning.AffinityFollowsTheSpec` | internal/resources/cronjob.go:72-81 | a pod is bound to its holder's node exactly if the mode asks for a holder, and to the consumers' node exactly if the PVC source selects them |
| `PodMeaning.PoliciesAreKept` | internal/resources/cronjob.go:42-49 | the policies of an accepted CR are its own or Forbid and Never, and values the API knows |
| `PodMeaning.BackupLogins` | internal/resources/cronjob.go:110-189 | user, password and S3 keys of a backup pod come each from its own key of the CR's Secret |
| `PodMeaning.RestoreLogins` | internal/resources/restore_cronjob.go:94-179 | S3 keys of a restore pod come from the CR's Secret, user and password from the Secret and keys of its engine |
| `PodMeaning.BackupVolumesFollow` | internal/resources/cronjob.go:244-279 | scratch is the CR's own claim or, without persistence, nothing that lasts; the passphrase is that of the CR's Secret |
| `PodMeaning.RestoreVolumesFollow` | internal/resources/restore_cronjob.go:181-212 | the same for a Restore |
| `PodBuild.EnsureSecret` | internal/controller/backup_controller.go:186-209 | passes if and only if every Secret key the backup pod refers to is there |
| `PodBuild.EnsureJobSecret` | internal/controller/restore_controller.go:166-178 | passes exactly if the S3 and passphrase keys are there |
| `PodBuild.EnsureTargetSecret` | internal/controller/restore_controller.go:180-193 | passes exactly if the target login is there |
| `PodBuild.RestoreChecksAreExact` | internal/resources/restore_cronjob.go:94-179 | both pass if and only if every Secret key the restore pod refers to is there |
| `PodBuild.BackupRefs` | internal/resources/cronjob.go:110-189 | the Secret references of a backup pod are exactly the checked keys |
| `PodBuild.WithRuntimeRole` | internal/resources/runtime.go:50-57 | copies all labels and sets the role |
| `PodBuild.ConfigMap.MutateBackup` | internal/resources/configmap.go:15-66 | the key-by-key writes give the environment that the `EnvMeaning` lemmas are about; refused exactly if S3 is on with an empty endpoint or bucket |
| `PodBuild.ConfigMap.MutateRestore` | internal/resources/restore_configmap.go:14-57 | the same for a Restore |
| `EnvMeaning.RestoreEnvSays` | internal/resources/restore_configmap.go:19-31 | for every Restore, what the scripts read is what the spec says: dropping, the fallback and the log file are switched on exactly if the field says so, unset counting as on, on and off; file name, work directory, host, port and database are the spec's |
| `EnvMeaning.RestorePostgresSays` | internal/pipeline/scripts/restore/pgrestore.sh:23-28 | pgAudit is stripped exactly if the field is not false; the owner role is the spec's or the database's name |
| `EnvMeaning.RestoreS3Says` | internal/resources/restore_configmap.go:24-26 | endpoint and bucket of the spec, or else of the operator's flags, and the path |
| `EnvMeaning.PodFollowsSpec` | internal/pipeline/scripts/restore/fetch.sh:9-14 | a restore run that reads its settings from the config map has exactly the permissions, fallback, filter and file name of the spec |
| `EnvMeaning.ForbiddenDropIsHonoured` | internal/pipeline/scripts/restore/pgrestore.sh:16-21 | from the spec to the database: with dropping forbidden no run touches a target the engine sees something in |
| `EnvMeaning.ConfigMapAcceptedIff` | internal/resources/configmap.go:57-64 | the settings are accepted if and only if spec or operator flags name an endpoint and a bucket |
| `EnvMeaning.BackupEnvSays` | internal/resources/configmap.go:20-55 | data directory, local retention as a number (7 if unset), log switch, host, port and database name read as the spec says |
| `EnvMeaning.BackupS3Says` | internal/resources/configmap.go:29-34 | where S3 is on, endpoint, bucket, path and retention (14 if unset) read as the spec says |
| `EnvMeaning.BackupSourceSays` | internal/resources/configmap.go:45-50 | the claim, its mount, the cleaned path, and excludes that read back as the list |
| `EnvMeaning.CleanupFollowsSpec` | internal/pipeline/scripts/backup/cleanup.sh:15-26 | a cleanup that reads the config map prunes by the spec's retention the archives of the spec's engine |
| `EnvMeaning.EnvNamesTheEngine` | internal/resources/engine.go:31-43 | engine name, dump prefix and S3 client directory in both kinds of pod |
| `EnvMeaning.NumberReads` | internal/resources/configmap.go:25-25 | a printed number reads back, negative ones included |

## Left out

- The external tools (pg_dump, psql, tar, gpg, gzip, mc, redis): they succeed, fail or stop half way; only the inverse pairs gzip/gunzip and encrypt/decrypt are assumed.
- Regular expressions: arbitrary predicates on lines; only the address and range rules are modelled.
- The MariaDB dump and restore scripts and the Redis dump script: they repeat the marker protocol of the modelled engines; PodLaws covers their markers and settings.
- Data contents under in-place restarts: only marker order is claimed there, because a retried dump may leave a partial file beside the good one.
- A script that waits or holds cannot fail by itself: a failing `sleep`, `log` or file test under `set -e` would mark a failure that cleanup's wipe or `clear_step_failed` could still erase.
- Restarts after a restore pod has begun to remove its scratch directory: `ProtocolOrder.MarkerOrder` and its companions stop at the teardown when restarts are allowed.
- Several live pods on one volume (`concurrencyPolicy: Allow`).
- The container loops of compress.sh, encrypt.sh and s3-sync.sh are transition systems over sets of names in any order, not array or list code: they run concurrently with their peers.
- Changes to the target database by others during a restore, the owner of a database, PostgreSQL roles and TimescaleDB pre- and post-restore calls.
- The ephemeral Redis server's bounded wait loops: one step that succeeds or fails.
- S3 objects removed by s3-sync's own pruning, and files in nested directories of the data volume.
- Retention.CleanupSpares: pod names start with `karkive-`, as the CronJob controller makes them from the CronJob's name.
- Log files, heartbeat output, metrics descriptors, manager, webhook and leader-election wiring.
- API-server defaulting and stale informer reads beyond an arbitrary conflict or error at every call.
- StatusCalc.OneNormalEventPerGeneration: every status write succeeds; after a failed write the next reconcile repeats the event.
- ScratchDir.BackupScratchIsShared: symbolic links in a path are not resolved.
- Cron expression and label-selector parsing: their verdicts are fields of the spec.
- The CronJob object itself: `MutateBackupCronJob` and `MutateRestoreCronJob` are modelled as functions that return the pod template, not as updates of an object.
- Images, pull policies, resource requests, security contexts, history limits, deadlines and the holder Deployment's own pod template.
