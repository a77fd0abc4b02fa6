# iniciativas-backup in Dafny

This project models the backup manifest pipeline of `iniciativas-backup`. The pipeline backs up the S3 buckets of an organisation's initiatives (its business projects) into a central backup bucket, grouped by criticality (`Critico`, `MenosCritico`, `NoCritico`). Around that pipeline the repository has restore tools, configuration snapshots and small operator applications, and these are modelled as well.

- **Incremental backup** (`IncrementalBackup`). This lambda handles S3 events that arrive through SQS. It keeps the events whose bucket carries a criticality tag and whose key is under an allowed prefix. It groups them by criticality, bucket and time window. For each group it writes a CSV manifest under `manifests/criticality=…/backup_type=incremental/…` and submits one S3 Batch Operations copy job.
- **Filter inventory** (`FilterInventory`, `Checkpoints`). This lambda reads the newest S3 Inventory of a source bucket and keeps the rows changed since the last checkpoint. It writes them as a multipart manifest. When no inventory exists it falls back to a live listing, bounded by an object cap and a time limit. It then records the new checkpoint.
- **Launch batch job** (`LaunchBatchJob`). This lambda moves the temporary manifest to its final key and creates the batch copy job. The data paths, report paths and manifest paths of one run share the same hour.
- **Restore lambdas** (`RestoreFromBackup`, `GenerateManifest`, `StartRestoreJob`). These locate the newest manifest and data prefix, then copy selected objects back or prepare a restore manifest and job.
- **Resource discovery and cleanup** (`FindResources`, `CleanupConfigs`). Discovery configures S3 Inventory and event notifications on tagged buckets. Cleanup removes them again.
- **Configuration snapshots** (`BackupConfigurations`, `RestoreConfigurations`, `MigrateLayout`). These export the settings of AWS services as JSON snapshots, restore them, and migrate snapshots from the legacy layout to the criticality layout.
- **Scripts and applications** (`ValidateCoverage`, `ReportSummary`, `SimpleConfig`, `SimpleS3Service`, `AdminConfig`, `AdminManager`, `RecoveryBrowser`). These cover the coverage validator, the batch-report summary, the simple restore application, the admin application and the recovery-points browser.

Shared modules hold the rest:
- `Base` holds Option, Result and the error kinds.
- `Strings` holds prefixes, `split`/`join`, case folding, stripping and the ordering of strings.
- `Stamps` holds instants and their `strftime`/`isoformat` texts.
- `Documents` holds parsed YAML and JSON values.
- `Listings` holds the newest-object scans.

S3 itself is the class `ObjectStore.Store`, a map from bucket and key to body. Its methods `Put`, `Copy` and `Delete` change it in place. Buckets can be unreachable, and deletes can be refused.

Listings, tags, clocks, identifiers and the answers of other AWS APIs are parameters of the operations. Loops of the source are methods with invariants, proved against specification functions. The lemmas then state what the source promises about those functions.

Four behaviours of the code that the model keeps as they are:
- checkpoints are overwritten unconditionally, not compared-and-swapped (`Checkpoints.OverwriteCanMoveBackwards`);
- an empty inventory manifest answers `EMPTY` without persisting a checkpoint;
- the fallback object cap stops only the current listing page, not the whole listing (`FilterInventory.CapOverrunsAcrossPages`);
- a truncated listing is never flagged as partial, so the model has no such flag.

Three other places where the code departs from what its authors evidently meant are listed under "## Findings". Each is modelled twice: as written, with a lemma that exhibits the problem, and corrected. The handlers that lead to them (`FilterInventory.Run`, the coverage scan of `ValidateCoverage`, `RestoreConfigurations.Run`) use the corrected version, as "## Left out" records member by member.

## Model

| member | source | states |
|---|---|---|
| `Checkpoints.CheckpointKeyInjective` | iniciativas-backup/initiative-logic/lambdas/filter_inventory/utils.py:26 | two checkpoint keys are equal only for the same source bucket (without `/`) and backup type |
| `Checkpoints.CheckpointOf` | iniciativas-backup/initiative-logic/lambdas/filter_inventory/utils.py:27-37 | a missing key (`NoSuchKey`) reads as "no checkpoint", any other error is raised, and a stored body yields a checkpoint exactly when it parses as an ISO timestamp, always a valid one |
| `Checkpoints.ReadWhatWasWritten` | iniciativas-backup/initiative-logic/lambdas/filter_inventory/utils.py:28-31 | reading back the ISO text of a valid timestamp gives that timestamp (isoformat/fromisoformat round trip) |
| `Checkpoints.WriteCheckpoint` | iniciativas-backup/initiative-logic/lambdas/filter_inventory/utils.py:40-52 | succeeds exactly when the bucket is reachable; then only the checkpoint key changes and reading it gives the written timestamp, otherwise the store is unchanged |
| `Checkpoints.OverwriteCanMoveBackwards` | iniciativas-backup/initiative-logic/lambdas/filter_inventory/utils.py:44-48 | the write is a blind overwrite: writing an older timestamp after a newer one leaves the older one as the checkpoint |
| `IncrementalBackup.FrequencyHours` | iniciativas-backup/initiative-logic/lambdas/incremental_backup/lambda_function.py:35-39 | only Critico (12 h) and MenosCritico (24 h) have a window; every window length divides the day |
| `IncrementalBackup.LastTagValue` | iniciativas-backup/initiative-logic/lambdas/incremental_backup/lambda_function.py:57 | the dict built from the tag set keeps the last tag with the key; absent exactly when no tag has it |
| `IncrementalBackup.CriticalityOf` | iniciativas-backup/initiative-logic/lambdas/incremental_backup/lambda_function.py:55-65 | a tag error yields MenosCritico only for `NoSuchTagSet` and is raised otherwise; a tag set always yields a value, MenosCritico when the tag is absent, and any other value is the tag's own |
| `IncrementalBackup.CriticalityCache.constructor` | iniciativas-backup/initiative-logic/lambdas/incremental_backup/lambda_function.py:42 | the cache starts empty with no lookups made |
| `IncrementalBackup.CriticalityCache.Get` | iniciativas-backup/initiative-logic/lambdas/incremental_backup/lambda_function.py:49-68 | returns the same answer as an uncached lookup; a non-empty cached value is returned without a lookup, otherwise one lookup is made and a successful answer is cached |
| `IncrementalBackup.WithinAllowedPrefixes` | iniciativas-backup/initiative-logic/lambdas/incremental_backup/lambda_function.py:71-76 | no prefixes for the criticality admits every key; otherwise a key is admitted exactly when it starts with one of them |
| `IncrementalBackup.WindowStart` | iniciativas-backup/initiative-logic/lambdas/incremental_backup/lambda_function.py:79-82 | same date, hour floored to a multiple of the frequency with the event's hour inside the window, minutes and below zeroed |
| `IncrementalBackup.WindowContains` | iniciativas-backup/initiative-logic/lambdas/incremental_backup/lambda_function.py:79-82 | the event time lies in [window start, window start + frequency hours) |
| `IncrementalBackup.WindowStartIdempotent` | iniciativas-backup/initiative-logic/lambdas/incremental_backup/lambda_function.py:79-82 | flooring a window start again changes nothing |
| `IncrementalBackup.SameLabelSameWindow` | iniciativas-backup/initiative-logic/lambdas/incremental_backup/lambda_function.py:281-286 | two events get the same window label exactly when they fall in the same window, so grouping by label groups by window |
| `IncrementalBackup.ManifestKeyInjective` | iniciativas-backup/initiative-logic/lambdas/incremental_backup/lambda_function.py:104-108 | the manifest key determines criticality, initiative, bucket, window label and run id |
| `IncrementalBackup.ManifestKeySplits` | iniciativas-backup/initiative-logic/lambdas/incremental_backup/lambda_function.py:104-108 | the manifest key splits on `/` into seven segments carrying criticality, initiative, bucket, window and run id |
| `IncrementalBackup.ManifestLines` | iniciativas-backup/initiative-logic/lambdas/incremental_backup/lambda_function.py:111 | one CSV line per object key, and line i is `bucket,key` for the i-th key in sorted order |
| `IncrementalBackup.ManifestBodyLines` | iniciativas-backup/initiative-logic/lambdas/incremental_backup/lambda_function.py:111-124 | the uploaded body splits into exactly one distinct `bucket,key` line per key of the group, and nothing else |
| `IncrementalBackup.AdmittedWindow` | iniciativas-backup/initiative-logic/lambdas/incremental_backup/lambda_function.py:255-288 | an admitted notification has a parsable time and a criticality with a window; its key is the unquoted key, within the allowed prefixes, and its group's window contains the event time |
| `IncrementalBackup.AddKey` | iniciativas-backup/initiative-logic/lambdas/incremental_backup/lambda_function.py:283-286 | `setdefault(gk, set()).add(key)`: the group gains the key and every other group is unchanged |
| `IncrementalBackup.ApplyMembers` | iniciativas-backup/initiative-logic/lambdas/incremental_backup/lambda_function.py:283-288 | after one decision a key is in a group exactly when it was before or the decision admitted it there |
| `IncrementalBackup.AddEventsWellFormed` | iniciativas-backup/initiative-logic/lambdas/incremental_backup/lambda_function.py:250-288 | grouping the notifications of a message keeps the groups distinct, each with a window start and at least one key |
| `IncrementalBackup.AddRecordsWellFormed` | iniciativas-backup/initiative-logic/lambdas/incremental_backup/lambda_function.py:244-292 | the same for all messages of the batch |
| `IncrementalBackup.RaisedStays` | iniciativas-backup/initiative-logic/lambdas/incremental_backup/lambda_function.py:250-292 | once a tag lookup raises, the rest of the notifications add nothing |
| `IncrementalBackup.EventsGroupedExactly` | iniciativas-backup/initiative-logic/lambdas/incremental_backup/lambda_function.py:283-288 | when nothing raises, a key ends up in a group exactly when it was there already or some notification admitted it to that group |
| `IncrementalBackup.DecideEvent` | iniciativas-backup/initiative-logic/lambdas/incremental_backup/lambda_function.py:252-288 | the loop body for one notification takes the decision of the specification, through the criticality cache |
| `IncrementalBackup.GroupEvents` | iniciativas-backup/initiative-logic/lambdas/incremental_backup/lambda_function.py:254-288 | the inner loop computes the grouping of the specification for one message |
| `IncrementalBackup.GroupRecords` | iniciativas-backup/initiative-logic/lambdas/incremental_backup/lambda_function.py:244-292 | the outer loop computes the grouping of the specification for the whole batch, starting from no groups |
| `IncrementalBackup.SubmitGroups` | iniciativas-backup/initiative-logic/lambdas/incremental_backup/lambda_function.py:298-341 | the jobs are exactly the accepted submissions of the non-empty groups, in group order; the failure flag holds exactly when some non-empty group got no job, and the groups after a failed one are still submitted; the store gains each non-empty group's manifest at its key, in order, when the backup bucket is reachable, and is unchanged otherwise; without a failure there is one job per group, each for that group's bucket, criticality and window and counting its keys |
| `IncrementalBackup.SubmitGroup` | iniciativas-backup/initiative-logic/lambdas/incremental_backup/lambda_function.py:302-334 | the group gets a job exactly when the backup bucket takes its manifest and Batch Operations accepts the request built from the manifest's key and ETag, and the job is then that group's; the store gains the group's manifest body at its key when the bucket is reachable and is unchanged otherwise |
| `IncrementalBackup.GroupJob` | iniciativas-backup/initiative-logic/lambdas/incremental_backup/lambda_function.py:312-334 | a group's outcome is a job exactly when the backup bucket is reachable and the request is accepted, and that job records the group's bucket, criticality, window and key count |
| `IncrementalBackup.SubmittedJobsAll` | iniciativas-backup/initiative-logic/lambdas/incremental_backup/lambda_function.py:298-341 | when no non-empty group failed, the jobs are one per group, the k-th being the k-th group's |
| `IncrementalBackup.ManifestsStored` | iniciativas-backup/initiative-logic/lambdas/incremental_backup/lambda_function.py:298-316 | when the groups' manifest locations differ, every group's manifest is in the store with its body after the uploads |
| `IncrementalBackup.ManifestLocsDiffer` | iniciativas-backup/initiative-logic/lambdas/incremental_backup/lambda_function.py:104-108 | two different groups write two different manifest keys when criticality and bucket hold no `/` and each window is the label of its start |
| `IncrementalBackup.GroupManifestsStored` | iniciativas-backup/initiative-logic/lambdas/incremental_backup/lambda_function.py:298-316 | under those conditions every group's manifest is in the store with its body once the backup bucket accepted the uploads |
| `IncrementalBackup.RefusedUploadsChangeNothing` | iniciativas-backup/initiative-logic/lambdas/incremental_backup/lambda_function.py:298-316 | a backup bucket that refuses the uploads leaves the store as it was |
| `IncrementalBackup.SubmitNext` | iniciativas-backup/initiative-logic/lambdas/incremental_backup/lambda_function.py:298-341 | one turn of the loop: an empty group is passed over; a non-empty group extends the jobs by its outcome, sets the failure flag when it gets no job, and adds its manifest to the store when the bucket is reachable |
| `IncrementalBackup.Handle` | iniciativas-backup/initiative-logic/lambdas/incremental_backup/lambda_function.py:233-362 | the handler succeeds exactly when no record raised and no non-empty group failed, and fails with the RuntimeError otherwise; whatever the outcome, every non-empty group's manifest is uploaded when the backup bucket is reachable; on success the jobs are the groups' jobs in order, the total is the sum of the job counts, and the status is NO_OBJECTS exactly when there is no job, BATCH_SUBMITTED otherwise |
| `LaunchBatchJob.DefaultGeneration` | iniciativas-backup/initiative-logic/lambdas/launch_batch_job/lambda_function.py:35 | the default generation is `father` exactly for full backups and `son` otherwise |
| `LaunchBatchJob.RunPathsShareHour` | iniciativas-backup/initiative-logic/lambdas/launch_batch_job/lambda_function.py:45-72 | the data prefix, reports prefix and final manifest key split into 11, 10 and 9+1 segments that share the bucket and the year/month/day/hour of the run, and the data prefix ends in the run's timestamp |
| `LaunchBatchJob.DataPathSplits` | iniciativas-backup/initiative-logic/lambdas/launch_batch_job/lambda_function.py:49-54 | the data prefix splits on `/` into its named segments |
| `LaunchBatchJob.ReportsPathSplits` | iniciativas-backup/initiative-logic/lambdas/launch_batch_job/lambda_function.py:65-70 | the reports prefix splits on `/` into its named segments |
| `LaunchBatchJob.ManifestPathSplits` | iniciativas-backup/initiative-logic/lambdas/launch_batch_job/lambda_function.py:57-72 | the final manifest key splits on `/` into its named segments and `manifest.csv` |
| `LaunchBatchJob.SegmentsShareHour` | iniciativas-backup/initiative-logic/lambdas/launch_batch_job/lambda_function.py:45-72 | the three segment lists agree on bucket and hour segments |
| `LaunchBatchJob.LaunchedObjects` | iniciativas-backup/initiative-logic/lambdas/launch_batch_job/lambda_function.py:74-99 | once every field is present and the temporary manifest is read, its body stays at the final key exactly when the final key differs from it or its bucket refuses the delete; no object other than the final and temporary keys changes |
| `LaunchBatchJob.Launch` | iniciativas-backup/initiative-logic/lambdas/launch_batch_job/lambda_function.py:27-148 | a missing event field is a KeyError with nothing changed; an unreachable manifest bucket fails with nothing changed; the handler returns a job id exactly when every field is present, the temporary manifest is readable and deletable, its final key differs from it and `create_job` accepts the job; on success the temporary manifest was moved (copied, then deleted) to the final key in the manifests bucket, or in the same bucket when that one is unreachable, and the job was created for that key and the copied object's ETag with the defaulted generation and criticality; whatever it returns, the store afterwards is `LaunchBatchJob.LaunchedObjects`, so a refused delete, a failed `head_object` or a refused job leaves the copy in place and the temporary key deleted or not as the delete went |
| `FilterInventory.Columns` | iniciativas-backup/initiative-logic/lambdas/filter_inventory/lambda_function.py:119 | one stripped column name per comma-separated field of the schema |
| `FilterInventory.ColumnsOfSchema` | iniciativas-backup/initiative-logic/lambdas/filter_inventory/lambda_function.py:119 | a schema joined from stripped names without commas reads back as those names |
| `FilterInventory.IndexOf` | iniciativas-backup/initiative-logic/lambdas/filter_inventory/lambda_function.py:125-127 | `list.index`: present exactly when the name is a column, and then its first position |
| `FilterInventory.GetColumnIndices` | iniciativas-backup/initiative-logic/lambdas/filter_inventory/lambda_function.py:117-128 | succeeds exactly when Bucket, Key and LastModifiedDate are all columns, otherwise names the first missing one in that order; the indices are the first positions of the three columns |
| `FilterInventory.PartWriter.constructor` | iniciativas-backup/initiative-logic/lambdas/filter_inventory/lambda_function.py:154-158 | the upload starts with no parts, an empty buffer and no rows |
| `FilterInventory.PartWriter.Write` | iniciativas-backup/initiative-logic/lambdas/filter_inventory/lambda_function.py:206-207 | one row more, its CSV line appended to the buffer, parts unchanged |
| `FilterInventory.PartWriter.FlushIfFull` | iniciativas-backup/initiative-logic/lambdas/filter_inventory/lambda_function.py:209-220 | a buffer of at least 6 MiB becomes the next part and is emptied; a smaller one stays |
| `FilterInventory.PartWriter.Finish` | iniciativas-backup/initiative-logic/lambdas/filter_inventory/lambda_function.py:222-230 | the parts, numbered from 1, concatenate to the CSV of every written row; every part but the last is at least 6 MiB; there are no parts exactly when no row was written, and the object count equals the rows written |
| `FilterInventory.NormaliseDataKey` | iniciativas-backup/initiative-logic/lambdas/filter_inventory/lambda_function.py:174-178 | the repaired data key is never longer than the listed one, and a key without `//` is unchanged |
| `FilterInventory.SelectRow` | iniciativas-backup/initiative-logic/lambdas/filter_inventory/lambda_function.py:190-207 | a row too short for the three indices is an error; a row is kept exactly when its date parses, its key starts with an allowed prefix (or there are none) and it is strictly newer than the checkpoint, and a kept row yields its bucket and key |
| `FilterInventory.SelectRows` | iniciativas-backup/initiative-logic/lambdas/filter_inventory/lambda_function.py:190-207 | the rows of a data file succeed exactly when none is too short, otherwise an `IndexError` |
| `FilterInventory.SelectRowsExactly` | iniciativas-backup/initiative-logic/lambdas/filter_inventory/lambda_function.py:190-207 | an entry is selected exactly when some row of the file is kept as it, and there are no more entries than rows |
| `FilterInventory.SelectRowsErrorStays` | iniciativas-backup/initiative-logic/lambdas/filter_inventory/lambda_function.py:190-207 | once a row is too short, later rows do not change the error |
| `FilterInventory.SelectFilesErrorStays` | iniciativas-backup/initiative-logic/lambdas/filter_inventory/lambda_function.py:166-186 | once a data file fails, later files do not change the error |
| `FilterInventory.ReadDataFile` | iniciativas-backup/initiative-logic/lambdas/filter_inventory/lambda_function.py:167-186 | reads the rows of one file entry: skipped when it has no key or the object is missing, after the key repair |
| `FilterInventory.StreamRows` | iniciativas-backup/initiative-logic/lambdas/filter_inventory/lambda_function.py:190-220 | the row loop writes exactly the selected entries of the file, or stops with the same error as the specification |
| `FilterInventory.StreamFiles` | iniciativas-backup/initiative-logic/lambdas/filter_inventory/lambda_function.py:166-220 | the file loop writes exactly the entries selected from all data files, or fails with the specification's error |
| `FilterInventory.StreamFile` | iniciativas-backup/initiative-logic/lambdas/filter_inventory/lambda_function.py:167-220 | one turn of the file loop extends the selection of the files so far by this file's entries |
| `FilterInventory.StreamInventory` | iniciativas-backup/initiative-logic/lambdas/filter_inventory/lambda_function.py:133-254 | fails exactly when the specification does; answers None exactly when no entry is selected, and then (as on failure) the store is unchanged; otherwise the temporary manifest holds the CSV of exactly the selected entries and is answered with its bucket, key and unquoted ETag |
| `FilterInventory.InventoryPrefix` | iniciativas-backup/initiative-logic/lambdas/filter_inventory/lambda_function.py:92-93 | the prefix ends in `/`, extends the given one, and is unchanged when it already did |
| `FilterInventory.FindLatestInventoryManifest` | iniciativas-backup/initiative-logic/lambdas/filter_inventory/lambda_function.py:87-112 | a listing error answers None; otherwise None exactly when no key ends in `manifest.json`, else the key of a newest such object (the first among equals) |
| `FilterInventory.ListingPrefixes` | iniciativas-backup/initiative-logic/lambdas/filter_inventory/lambda_function.py:288-289 | the fallback always lists at least one prefix (the empty one when none is configured) |
| `FilterInventory.PageEntriesBound` | iniciativas-backup/initiative-logic/lambdas/filter_inventory/lambda_function.py:306-312 | within one page the object cap is exceeded by at most one entry, and a page that starts at the cap adds at most one |
| `FilterInventory.PagesEntriesBound` | iniciativas-backup/initiative-logic/lambdas/filter_inventory/lambda_function.py:299-315 | across pages the count can exceed the cap by at most one entry per page |
| `FilterInventory.CapOverrunsAcrossPages` | iniciativas-backup/initiative-logic/lambdas/filter_inventory/lambda_function.py:310-315 | with a cap of one and two pages of one new object each, both objects are written |
| `FilterInventory.ListPage` | iniciativas-backup/initiative-logic/lambdas/filter_inventory/lambda_function.py:300-315 | the object loop of one page writes exactly the specification's entries for that page |
| `FilterInventory.PageObject` | iniciativas-backup/initiative-logic/lambdas/filter_inventory/lambda_function.py:300-315 | one turn of the object loop: writes the object's row and stops exactly when the specification stops |
| `FilterInventory.ListObject` | iniciativas-backup/initiative-logic/lambdas/filter_inventory/lambda_function.py:301-315 | writes the row of a new object, and breaks exactly when the object was written and a limit is reached |
| `FilterInventory.ListPages` | iniciativas-backup/initiative-logic/lambdas/filter_inventory/lambda_function.py:299-328 | the page loop of one prefix writes exactly the specification's entries for its pages |
| `FilterInventory.ListPrefixes` | iniciativas-backup/initiative-logic/lambdas/filter_inventory/lambda_function.py:293-328 | the prefix loop writes exactly the specification's entries, or fails with its error |
| `FilterInventory.ListPrefix` | iniciativas-backup/initiative-logic/lambdas/filter_inventory/lambda_function.py:293-328 | one turn of the prefix loop advances the specification by that prefix's entries |
| `FilterInventory.GenerateFromListing` | iniciativas-backup/initiative-logic/lambdas/filter_inventory/lambda_function.py:260-360 | as `StreamInventory`, for the entries of the fallback listing |
| `FilterInventory.LenientCheckpoint` | iniciativas-backup/initiative-logic/lambdas/filter_inventory/lambda_function.py:37-54 | every error reads as "no checkpoint"; a checkpoint is read exactly when the body parses, and it is valid |
| `FilterInventory.WriteCheckpointLenient` | iniciativas-backup/initiative-logic/lambdas/filter_inventory/lambda_function.py:57-72 | a reachable bucket gets the checkpoint key set to the ISO text, which then reads back as the timestamp; otherwise the error is swallowed and nothing changes |
| `FilterInventory.EffectiveType` | iniciativas-backup/initiative-logic/lambdas/filter_inventory/lambda_function.py:378-382 | the run is full exactly when requested full or when an incremental run without checkpoint is forced full; otherwise it is the requested type |
| `FilterInventory.FullAndIncrementalKeysDiffer` | iniciativas-backup/initiative-logic/lambdas/filter_inventory/lambda_function.py:41 | the full and incremental checkpoints of a bucket are separate objects |
| `FilterInventory.ForcedFirstRunStaysForced` | iniciativas-backup/initiative-logic/lambdas/filter_inventory/lambda_function.py:378-403 | as written: a forced first incremental run records its checkpoint under `full`, so the incremental checkpoint stays absent and the next incremental run is forced full again |
| `FilterInventory.IntendedCheckpointType` | iniciativas-backup/initiative-logic/lambdas/filter_inventory/lambda_function.py:402-403 | a forced full run records its checkpoint under the requested incremental type, not under `full` |
| `FilterInventory.IntendedFirstRunRecordsIncremental` | iniciativas-backup/initiative-logic/lambdas/filter_inventory/lambda_function.py:378-403 | with the corrected type, after a forced first run the incremental checkpoint reads as that run's time, so the next incremental run is incremental from that time |
| `FilterInventory.TempAndCheckpointKeysDiffer` | iniciativas-backup/initiative-logic/lambdas/filter_inventory/lambda_function.py:142 | the temporary manifest never overwrites a checkpoint |
| `FilterInventory.Run` | iniciativas-backup/initiative-logic/lambdas/filter_inventory/lambda_function.py:375-413 | the outcome follows the specification of the selected entries, from the inventory when a manifest was found and from the fallback listing otherwise, with the checkpoint ignored for full runs: FAILED with its error, EMPTY when nothing is selected, otherwise SUCCESS with the temporary manifest written and the checkpoint set to the run's time; nothing changes unless SUCCESS |
| `FilterInventory.Handle` | iniciativas-backup/initiative-logic/lambdas/filter_inventory/lambda_function.py:365-417 | missing event fields fail with KeyError in order backup_bucket, source_bucket, backup_type, inventory_key; for an event with all four the outcome is Run's on the newest `manifest.json` under the inventory prefix: FAILED with the selection's error, EMPTY exactly when nothing is selected, otherwise SUCCESS with the temporary manifest written and the checkpoint set to the run's time; only SUCCESS changes the store, and it reports the source bucket, the defaulted criticality, the temporary manifest key and a type that is the requested one or full |
| `RestoreFromBackup.PySlice` | iniciativas-backup/initiative-logic/lambdas/restore_from_backup/lambda_function.py:47 | Python slicing clamps at the end of the string and agrees with an in-range slice |
| `RestoreFromBackup.EventLabelRoundTrip` | iniciativas-backup/initiative-logic/lambdas/restore_from_backup/lambda_function.py:47 | the label built from the event's year, month, day and hour (line 129) reads back as those four fields |
| `RestoreFromBackup.WindowLabelFields` | iniciativas-backup/initiative-logic/lambdas/restore_from_backup/lambda_function.py:47 | a window label written by the incremental backup reads back as its zero-padded year, month, day and hour |
| `RestoreFromBackup.RestoreFindsLaunchedData` | iniciativas-backup/initiative-logic/lambdas/restore_from_backup/lambda_function.py:52-56 | the data prefix the batch-job launcher writes for a run lies under the base prefix restore lists for that run's window |
| `RestoreFromBackup.Latest` | iniciativas-backup/initiative-logic/lambdas/restore_from_backup/lambda_function.py:19-38 | the running maximum answers None exactly when no prefix carries a value, else the first prefix with the greatest value, which is the one `LatestOf` names |
| `RestoreFromBackup.LatestOf` | iniciativas-backup/initiative-logic/lambdas/restore_from_backup/lambda_function.py:19-38 | the prefix it names carries the greatest value and comes first among those that do |
| `RestoreFromBackup.LatestUnique` | iniciativas-backup/initiative-logic/lambdas/restore_from_backup/lambda_function.py:19-38 | at most one prefix is the first with the greatest value |
| `RestoreFromBackup.NewLatest` | iniciativas-backup/initiative-logic/lambdas/restore_from_backup/lambda_function.py:33-35 | a value above the current best is above every value seen so far |
| `RestoreFromBackup.LatestDataPrefix` | iniciativas-backup/initiative-logic/lambdas/restore_from_backup/lambda_function.py:19-41 | a listing error answers None; otherwise None exactly when no prefix carries a `window=`/`timestamp=` value, else the first prefix with the greatest value |
| `RestoreFromBackup.FindLatestManifest` | iniciativas-backup/initiative-logic/lambdas/restore_from_backup/lambda_function.py:60-73 | a listing error is raised; otherwise None exactly when no key ends in `.csv`, else the key of the newest such object |
| `RestoreFromBackup.WindowOfKey` | iniciativas-backup/initiative-logic/lambdas/restore_from_backup/lambda_function.py:152-157 | a manifest key without a `window=` segment gives the empty label |
| `RestoreFromBackup.ManifestRows` | iniciativas-backup/initiative-logic/lambdas/restore_from_backup/lambda_function.py:76-84 | rows shorter than two cells are dropped, so there are no more pairs than rows |
| `RestoreFromBackup.RestoredWithinMax` | iniciativas-backup/initiative-logic/lambdas/restore_from_backup/lambda_function.py:188-207 | the restore loop stops once the restored count reaches `max_objects`, so it never exceeds it |
| `RestoreFromBackup.RowsCounted` | iniciativas-backup/initiative-logic/lambdas/restore_from_backup/lambda_function.py:177-207 | every row processed is counted once as restored, skipped or error, and when the cap is not reached all rows are processed |
| `RestoreFromBackup.RestoreTouchesOnlySelected` | iniciativas-backup/initiative-logic/lambdas/restore_from_backup/lambda_function.py:178-199 | only keys of the source bucket under the prefix filter are written, and a dry run writes nothing |
| `RestoreFromBackup.RestoreLoop` | iniciativas-backup/initiative-logic/lambdas/restore_from_backup/lambda_function.py:173-207 | the loop's counters and the store's new contents are those of the specification of the manifest rows |
| `RestoreFromBackup.MaxObjects` | iniciativas-backup/initiative-logic/lambdas/restore_from_backup/lambda_function.py:112 | the cap is never zero: a given non-zero value is kept, a missing or zero one becomes 10000 |
| `RestoreFromBackup.ResolveLabel` | iniciativas-backup/initiative-logic/lambdas/restore_from_backup/lambda_function.py:127-163 | with a full date the label is built from it; otherwise the first `window=` segment of the manifest key, and without one the label of the manifest's LastModified time, or its error |
| `RestoreFromBackup.Locate` | iniciativas-backup/initiative-logic/lambdas/restore_from_backup/lambda_function.py:127-168 | the manifest is the newest `.csv` under the search prefix and the data prefix the latest under the base prefix of the resolved window label; no manifest raises RuntimeError with the message of the dated or undated search, and no data prefix raises RuntimeError with its message; it succeeds exactly when a manifest is found, its label resolves and a data prefix is found |
| `RestoreFromBackup.Handle` | iniciativas-backup/initiative-logic/lambdas/restore_from_backup/lambda_function.py:87-224 | a missing source bucket is a ValueError; a failure changes nothing; with a source bucket it succeeds exactly when the lookup succeeds and the manifest can be read, failing otherwise with the lookup's RuntimeError or the read error; no manifest raises the RuntimeError naming the search; on success the status reflects `dry_run`, the manifest and data prefix are the located ones with the defaulted criticality, type and generation, and the store and the restored/skipped/error counts are those of the specification applied to the manifest's rows |
| `ValidateCoverage.SourceObjects` | iniciativas-backup/scripts/validate_backup_coverage.py:34-53 | a listing error is raised; otherwise the keys are exactly the listed keys that are not folder markers (ending in `/`) |
| `ValidateCoverage.FirstMarker` | iniciativas-backup/scripts/validate_backup_coverage.py:80-85 | the position of the first `window=`/`timestamp=` segment, with none before it, or none at all |
| `ValidateCoverage.LaunchedKeyParts` | iniciativas-backup/scripts/validate_backup_coverage.py:78-90 | a key the batch job writes splits into the run's 11 data segments and the source key's pieces, its first marker is the run's timestamp, and the pieces after it join back to the source key |
| `ValidateCoverage.LaunchedKeyReadBack` | iniciativas-backup/scripts/validate_backup_coverage.py:78-92 | the coverage scan reads back the original key from every key the batch job writes for the bucket |
| `ValidateCoverage.OtherBucketCountsAsCovered` | iniciativas-backup/scripts/validate_backup_coverage.py:89 | as written: a key backed up for bucket `src-other` also reads as covering bucket `src`, since the bucket test is a substring test |
| `ValidateCoverage.ExactReadBack` | iniciativas-backup/scripts/validate_backup_coverage.py:87-92 | with the bucket segment matched exactly, a backed-up key reads back as its source key for its own bucket and as nothing for any other bucket |
| `ValidateCoverage.BucketAmongSegments` | iniciativas-backup/scripts/validate_backup_coverage.py:89 | the run's segments name a bucket exactly when it is the run's own bucket |
| `ValidateCoverage.Extracted` | iniciativas-backup/scripts/validate_backup_coverage.py:70-92 | a key is collected exactly when some listed backup key reads back as it |
| `ValidateCoverage.ExtractInto` | iniciativas-backup/scripts/validate_backup_coverage.py:73-92 | the page loop adds exactly the keys read back from the listed keys |
| `ValidateCoverage.AddExtracted` | iniciativas-backup/scripts/validate_backup_coverage.py:74-92 | one turn of the loop adds the key read back from one listed key, if any |
| `ValidateCoverage.BackedUpObjects` | iniciativas-backup/scripts/validate_backup_coverage.py:56-98 | the backed-up keys are exactly those read back (with the exact bucket match) from the three backup prefixes of the criticality, incremental, full and legacy |
| `ValidateCoverage.Sample` | iniciativas-backup/scripts/validate_backup_coverage.py:131-132 | at most 50 distinct members of the set, as many as it has below that |
| `ValidateCoverage.CompareFacts` | iniciativas-backup/scripts/validate_backup_coverage.py:118-155 | missing and extra keys are disjoint, the bucket passes exactly when every source key is backed up, a passing bucket reports no missing keys, and missing plus covered equals the source total |
| `ValidateCoverage.ValidateBucket` | iniciativas-backup/scripts/validate_backup_coverage.py:101-157 | the outcome is the source listing compared with the backed-up keys, or the listing's error |
| `ValidateCoverage.TagValue` | iniciativas-backup/scripts/validate_backup_coverage.py:175-176 | the last tag with the key wins, and an absent key gives the default |
| `ValidateCoverage.Discovered` | iniciativas-backup/scripts/validate_backup_coverage.py:172-176 | the bucket name is a suffix of the ARN, the whole ARN when it has no `:::` |
| `ValidateCoverage.CheckBucket` | iniciativas-backup/scripts/validate_backup_coverage.py:223-233 | a bucket passes exactly when its validation succeeds without missing keys; an error counts as failing |
| `ValidateCoverage.ExitCode` | iniciativas-backup/scripts/validate_backup_coverage.py:215-260 | the exit code is 0 exactly when every bucket passes (so also for no buckets) and 1 otherwise |
| `GenerateManifest.NormalizedPrefix` | iniciativas-backup/modules/restore_service/lambdas/generate_manifest/lambda_function.py:15-17 | the prefix ends in `/`, extends the given one by at most that slash, and is unchanged when it already ends in one |
| `GenerateManifest.NormalizedPrefixIdempotent` | iniciativas-backup/modules/restore_service/lambdas/generate_manifest/lambda_function.py:15-17 | normalising twice equals normalising once, and the empty prefix becomes `/` |
| `GenerateManifest.KeptKeys` | iniciativas-backup/modules/restore_service/lambdas/generate_manifest/lambda_function.py:34-38 | a key is kept exactly when some listed object has it, non-empty and not ending in `/` |
| `GenerateManifest.KeptKeysAppend` | iniciativas-backup/modules/restore_service/lambdas/generate_manifest/lambda_function.py:34-40 | the keys kept from two listings in a row are those of the first followed by those of the second |
| `GenerateManifest.RowsEmpty` | iniciativas-backup/modules/restore_service/lambdas/generate_manifest/lambda_function.py:42-43 | the CSV is empty exactly when no key was kept, which is the case the handler refuses |
| `GenerateManifest.WriteRows` | iniciativas-backup/modules/restore_service/lambdas/generate_manifest/lambda_function.py:33-40 | the listing loop writes one `bucket,key` row per kept key, in order, and counts them |
| `GenerateManifest.ManifestKeyUnderPrefix` | iniciativas-backup/modules/restore_service/lambdas/generate_manifest/lambda_function.py:46 | for a prefix ending in a single slash the manifest key is that prefix followed by `manifest-<run id>.csv` |
| `GenerateManifest.Handle` | iniciativas-backup/modules/restore_service/lambdas/generate_manifest/lambda_function.py:20-62 | a missing source bucket or a listing with no kept key is a ValueError and changes nothing; the handler succeeds exactly when the source bucket is given, the listing succeeds, some key is kept and the manifest bucket is reachable; on success the manifest object holds exactly the rows of the kept keys under the normalised prefix in the chosen bucket, and the answer reports its location and count |
| `StartRestoreJob.RequestFacts` | iniciativas-backup/modules/restore_service/lambdas/start_restore_job/lambda_function.py:24-66 | the report prefix extends the target prefix and ends in `/`; the storage class is sent exactly when it is non-blank after stripping; the request token is the first truthy of clientRequestToken, requestId and the manifest key; target and report bucket are the target's ARN; the ETag is unquoted |
| `StartRestoreJob.Start` | iniciativas-backup/modules/restore_service/lambdas/start_restore_job/lambda_function.py:14-78 | a missing manifest bucket or key, then a missing target bucket, are ValueErrors with the source's messages; on success the manifest's head succeeded, the job was created from the request built from it, and the answer is RUNNING with the job id, target and report prefix |
| `FindResources.WithTrigger` | iniciativas-backup/initiative-logic/lambdas/find_resources/lambda_function.py:140-168 | the configuration always ends up with the SQS trigger; an existing trigger leaves it as it was, otherwise the trigger is appended to the queue configurations (or is the only one when there was no configuration), other notification kinds kept |
| `FindResources.WithTriggerIdempotent` | iniciativas-backup/initiative-logic/lambdas/find_resources/lambda_function.py:145-148 | applying it to a configuration that already has the trigger changes nothing, whatever queue is given |
| `FindResources.WithTriggerKeeps` | iniciativas-backup/initiative-logic/lambdas/find_resources/lambda_function.py:150-155 | the existing queue configurations stay, in order, with at most one added |
| `FindResources.FirstTagValue` | iniciativas-backup/initiative-logic/lambdas/find_resources/lambda_function.py:194-197 | `next(...)` over the tag set: the first tag with the key, or none exactly when no tag has it |
| `FindResources.Criticality` | iniciativas-backup/initiative-logic/lambdas/find_resources/lambda_function.py:190-209 | `NoSuchTagSet` gives MenosCritico and other tag errors are raised; a tag set gives its first criticality tag, or MenosCritico |
| `FindResources.CriticalityAgreesWithIncremental` | iniciativas-backup/initiative-logic/lambdas/find_resources/lambda_function.py:190-209 | when the criticality tag appears at most once, discovery and the incremental backup read the same criticality |
| `FindResources.Account.CreateInventory` | iniciativas-backup/initiative-logic/lambdas/find_resources/lambda_function.py:38-85 | succeeds exactly when the bucket allows it; then its inventory is the daily CSV inventory into the central bucket, otherwise nothing changes; notifications are untouched |
| `FindResources.Account.EnsureInventory` | iniciativas-backup/initiative-logic/lambdas/find_resources/lambda_function.py:88-123 | a daily inventory is left alone, a missing or non-daily one is replaced by the daily one; afterwards the bucket has a daily inventory unless access is denied, in which case nothing changes |
| `FindResources.Account.EnsureNotification` | iniciativas-backup/initiative-logic/lambdas/find_resources/lambda_function.py:130-183 | succeeds exactly when access is allowed; then the bucket's configuration becomes `WithTrigger` of the current one, otherwise nothing changes |
| `FindResources.ConfigureOne` | iniciativas-backup/initiative-logic/lambdas/find_resources/lambda_function.py:270-295 | the outcome is exactly the bucket's: AccessDenied when its inventory or notification call is refused, else its criticality or the tagging error; a configured bucket has inventory and trigger and reports its criticality; no other bucket's inventory or notification changes, and nothing configured before is lost; the new inventories and notifications are exactly those of `FindResources.ConfigureEffect` |
| `FindResources.BucketOutcome` | iniciativas-backup/initiative-logic/lambdas/find_resources/lambda_function.py:270-295 | a bucket is configured with a criticality exactly when neither its inventory nor its notification call is refused and its criticality tag is read |
| `FindResources.ConfigureEffect` | iniciativas-backup/initiative-logic/lambdas/find_resources/lambda_function.py:270-277 | a bucket whose inventory call is refused is left as it was; otherwise it ends with a daily inventory, and with the trigger when its notification call is allowed; every other bucket is left as it was |
| `FindResources.UnnamedUntouched` | iniciativas-backup/initiative-logic/lambdas/find_resources/lambda_function.py:264-295 | a bucket no ARN names keeps its inventory and notifications |
| `FindResources.NamedConfigured` | iniciativas-backup/initiative-logic/lambdas/find_resources/lambda_function.py:264-295 | a named bucket whose inventory call is allowed ends with a daily inventory, and with the trigger when its notification call is allowed, whatever later buckets do |
| `FindResources.ConfigureAll` | iniciativas-backup/initiative-logic/lambdas/find_resources/lambda_function.py:264-295 | the records are exactly the entries of the ARNs whose bucket was configured and the errors exactly those of the others, both in discovery order, so every tagged bucket gives one record or one error; each record's bucket is configured and came from an ARN, with its inventory key, the central bucket and its criticality; a denied bucket never gets a record; the new inventories and notifications are the buckets configured in turn; a bucket no ARN names keeps its inventory and notifications, and every named bucket whose inventory call is allowed ends with a daily inventory, and with the trigger when its notification call is allowed |
| `FindResources.RecordsExactly` | iniciativas-backup/initiative-logic/lambdas/find_resources/lambda_function.py:264-295 | every discovered bucket whose configuration succeeds has its record in the result, every record comes from a discovered bucket, and records and errors together are one per ARN |
| `FindResources.RecordFacts` | iniciativas-backup/initiative-logic/lambdas/find_resources/lambda_function.py:264-295 | every record carries its bucket's inventory key, the central bucket and its criticality, names a discovered bucket, and never a denied one |
| `FindResources.FailuresFrom` | iniciativas-backup/initiative-logic/lambdas/find_resources/lambda_function.py:264-295 | every error entry names a discovered bucket |
| `FindResources.Handle` | iniciativas-backup/initiative-logic/lambdas/find_resources/lambda_function.py:216-309 | missing environment variables are a KeyError with nothing changed; a tagging error is raised; the handler succeeds exactly when the variables are set and the tag search succeeds; then the buckets are exactly the records of the tagged buckets whose calls were allowed and whose criticality was read, `Errors` is present exactly when some bucket failed and then lists exactly those failures, no tagged bucket answers an empty list, and every record is configured; any error leaves inventories and notifications unchanged; on success they are the tagged buckets configured in turn, and a bucket no tagged ARN names keeps both |
| `RestoreConfigurations.DependencyOrderSupported` | iniciativas-backup/scripts/restore_configurations.py:31-33 | the `--all` dependency order (line 472) lists exactly the supported services, each once, and the default services are supported |
| `RestoreConfigurations.AliasMissesWriterFolders` | iniciativas-backup/scripts/restore_configurations.py:37-48 | as written: for iam, stepfunctions, eventbridge and dynamodb no snapshot the backup writes lies under the prefix restore lists |
| `RestoreConfigurations.AliasKeepsName` | iniciativas-backup/scripts/restore_configurations.py:37-44 | those four services are not in the alias map, so restore looks under their CLI name, which differs from the writer's folder |
| `RestoreConfigurations.WriterFoldersRenamed` | iniciativas-backup/scripts/restore_configurations.py:37-40 | the corrected alias table maps every service to the folder the configuration backup writes it under (s3_buckets, eventbridge_rules, step_functions, lambda_functions, iam_roles, dynamodb_tables) |
| `RestoreConfigurations.FixedPrefixFindsSnapshots` | iniciativas-backup/scripts/restore_configurations.py:43-48 | with the corrected table every snapshot the backup writes for a service lies under restore's Critico prefix for it, and for s3 and lambda the prefix is the one written in the script |
| `RestoreConfigurations.PrefixPinsFolder` | iniciativas-backup/scripts/restore_configurations.py:43-48 | a snapshot key lies under a restore prefix only for criticality Critico and the folder it was written under |
| `RestoreConfigurations.OnlyCriticoHoldsSnapshots` | iniciativas-backup/scripts/restore_configurations.py:43-48 | snapshots are written only under Critico, so listing under another criticality finds none, with either prefix |
| `RestoreConfigurations.FindLatestKey` | iniciativas-backup/scripts/restore_configurations.py:51-62 | none exactly when no key ends in `.json` (any case); otherwise the key of a newest such object, the first among equals |
| `RestoreConfigurations.FindByTimestamp` | iniciativas-backup/scripts/restore_configurations.py:508-520 | none exactly when no key contains the timestamp; otherwise the first key that does |
| `RestoreConfigurations.PickSnapshot` | iniciativas-backup/scripts/restore_configurations.py:500-520 | the key picked for a service is the newest JSON with `--latest` and the first key containing the timestamp otherwise |
| `RestoreConfigurations.RequestedFacts` | iniciativas-backup/scripts/restore_configurations.py:472-482 | `--all` gives the dependency order; otherwise the trimmed non-empty `--services` items come first and the `--service` arguments last, and with neither the default s3, eventbridge, stepfunctions; the list is never empty |
| `RestoreConfigurations.ResolveServices` | iniciativas-backup/scripts/restore_configurations.py:472-482 | the services resolved by the script's branches are those of `Requested` |
| `RestoreConfigurations.CsvServices` | iniciativas-backup/scripts/restore_configurations.py:478 | the comprehension keeps the stripped non-empty items in order |
| `RestoreConfigurations.FirstUnsupported` | iniciativas-backup/scripts/restore_configurations.py:483-486 | none exactly when every service is supported, otherwise the first unsupported one |
| `RestoreConfigurations.ApiLog.Record` | iniciativas-backup/scripts/restore_configurations.py:73-174 | an API call is appended to the log of calls made |
| `RestoreConfigurations.InventoryCallsHaveIds` | iniciativas-backup/scripts/restore_configurations.py:131-137 | every inventory call targets the bucket and carries the entry's `Id` (or `id`), and entries without one are skipped |
| `RestoreConfigurations.BucketCallsTargetBucket` | iniciativas-backup/scripts/restore_configurations.py:75-144 | every call for a bucket entry targets that bucket, which has a name, and inventory or notification calls happen only with the extra flag |
| `RestoreConfigurations.S3CallsTargetNamedBuckets` | iniciativas-backup/scripts/restore_configurations.py:73-144 | every S3 call targets the non-empty name of some snapshot entry, and inventory or notification calls happen only with the extra flag |
| `RestoreConfigurations.RestoreInventory` | iniciativas-backup/scripts/restore_configurations.py:131-137 | the inventory loop makes exactly the specification's calls |
| `RestoreConfigurations.RestoreBucket` | iniciativas-backup/scripts/restore_configurations.py:75-144 | one bucket entry makes exactly the specification's calls |
| `RestoreConfigurations.PutWhen` | iniciativas-backup/scripts/restore_configurations.py:80-122 | a call is made only when its setting is present |
| `RestoreConfigurations.PutSettings` | iniciativas-backup/scripts/restore_configurations.py:80-122 | policy, lifecycle, encryption, CORS and replication calls in that order, each only when set |
| `RestoreConfigurations.PutExtras` | iniciativas-backup/scripts/restore_configurations.py:124-144 | inventory then notification calls, only when present |
| `RestoreConfigurations.RestoreS3` | iniciativas-backup/scripts/restore_configurations.py:73-144 | with `--yes` the S3 restorer makes exactly the specification's calls, without it none |
| `RestoreConfigurations.RuleOptions` | iniciativas-backup/scripts/restore_configurations.py:157-165 | RoleArn, ScheduleExpression and EventPattern are passed exactly when set, with their values, and no other option |
| `RestoreConfigurations.TargetsFollowTheirRule` | iniciativas-backup/scripts/restore_configurations.py:147-173 | every put-targets call follows the put-rule call of the same rule, and only named rules are put |
| `RestoreConfigurations.RestoreEventBridge` | iniciativas-backup/scripts/restore_configurations.py:147-173 | with `--yes` exactly the specification's rule and target calls, without it none |
| `RestoreConfigurations.RestoreRule` | iniciativas-backup/scripts/restore_configurations.py:148-173 | one rule makes exactly its specified calls |
| `RestoreConfigurations.SettingsMembers` | iniciativas-backup/scripts/restore_configurations.py:336-345 | a setting is passed exactly when some field pair maps to it with a value, and then with that value |
| `RestoreConfigurations.LambdaUpdatesCarrySettings` | iniciativas-backup/scripts/restore_configurations.py:327-350 | at most one update per function; each names a function and carries at least one setting, all from the list of ten |
| `RestoreConfigurations.GatherSettings` | iniciativas-backup/scripts/restore_configurations.py:335-345 | the settings loop collects exactly the specification's settings |
| `RestoreConfigurations.RestoreLambda` | iniciativas-backup/scripts/restore_configurations.py:327-350 | with `--yes` exactly the specification's updates, without it none |
| `RestoreConfigurations.RestoreFunction` | iniciativas-backup/scripts/restore_configurations.py:329-350 | one function entry makes exactly its specified update |
| `RestoreConfigurations.RestoreService` | iniciativas-backup/scripts/restore_configurations.py:525-542 | with `--yes` the service's restorer makes exactly the specification's calls, without it none |
| `RestoreConfigurations.ProcessService` | iniciativas-backup/scripts/restore_configurations.py:499-542 | one service: the snapshot is picked as specified, a load error is reported, and the calls are the specification's replay |
| `RestoreConfigurations.ProcessNext` | iniciativas-backup/scripts/restore_configurations.py:499-542 | one turn of the service loop extends the picks and the call log as specified |
| `RestoreConfigurations.ProcessServices` | iniciativas-backup/scripts/restore_configurations.py:499-545 | the loop picks a snapshot per service as specified and stops at the first snapshot that cannot be loaded; otherwise all services are processed and the exit code is 0; the call log is the specification's |
| `RestoreConfigurations.DryRunCallsNothing` | iniciativas-backup/scripts/restore_configurations.py:84-173 | without `--yes` no restorer calls the API |
| `RestoreConfigurations.Run` | iniciativas-backup/scripts/restore_configurations.py:454-545 | exit code 2 exactly when some requested service is unsupported, with nothing done; otherwise each processed service's snapshot is picked under the corrected prefix, code 0 means all were processed, a load error ends the run, the calls are the specification's, and a dry run calls nothing |
| `BackupConfigurations.SnapshotKeyParts` | iniciativas-backup/initiative-logic/lambdas/backup_configurations/lambda_function.py:847-864 | a snapshot key splits into ten segments: Critico, the initiative, the service folder, the hour segments of the run and a `.json` file name |
| `BackupConfigurations.SnapshotKeyInjective` | iniciativas-backup/initiative-logic/lambdas/backup_configurations/lambda_function.py:857-864 | two snapshot keys are equal only for the same service folder and the same second |
| `BackupConfigurations.Redacted` | iniciativas-backup/initiative-logic/lambdas/backup_configurations/lambda_function.py:289-291 | the connection properties keep their keys and values except `PASSWORD`, which becomes `***REDACTED***` |
| `BackupConfigurations.RedactedIdempotent` | iniciativas-backup/initiative-logic/lambdas/backup_configurations/lambda_function.py:289-291 | redacting twice equals redacting once |
| `BackupConfigurations.KeptNames` | iniciativas-backup/initiative-logic/lambdas/backup_configurations/lambda_function.py:504 | a function name is exported exactly when it is listed and contains one of the keywords, case-insensitively |
| `BackupConfigurations.LambdaNamesAreIamNames` | iniciativas-backup/initiative-logic/lambdas/backup_configurations/lambda_function.py:574 | every name the Lambda filter keeps passes the IAM filter too, since the Lambda keywords are among the IAM ones |
| `BackupConfigurations.Switches` | iniciativas-backup/initiative-logic/lambdas/backup_configurations/lambda_function.py:898-980 | one switch per service, and S3 is always on |
| `BackupConfigurations.Selected` | iniciativas-backup/initiative-logic/lambdas/backup_configurations/lambda_function.py:898-986 | the services run are a subsequence of the service table, starting with S3 |
| `BackupConfigurations.Contribution` | iniciativas-backup/initiative-logic/lambdas/backup_configurations/lambda_function.py:903-985 | a service's contribution exists exactly when every count field it adds is present (a missing one raises KeyError) |
| `BackupConfigurations.ContributionIgnores` | iniciativas-backup/initiative-logic/lambdas/backup_configurations/lambda_function.py:912-917 | counts outside a service's fields do not change its contribution |
| `BackupConfigurations.GlueTotalExcludesConnections` | iniciativas-backup/initiative-logic/lambdas/backup_configurations/lambda_function.py:912-917 | the Glue total does not depend on connections, triggers or workflows |
| `BackupConfigurations.CollectShape` | iniciativas-backup/initiative-logic/lambdas/backup_configurations/lambda_function.py:898-986 | each selected service appends its name and its snapshot key, in order, and earlier entries and the timestamp are kept |
| `BackupConfigurations.SummaryOfRun` | iniciativas-backup/initiative-logic/lambdas/backup_configurations/lambda_function.py:885-996 | a successful run lists one name and one key per selected service, starting with S3, stamped with the run's time, and the summary key is not among them |
| `BackupConfigurations.SaveService` | iniciativas-backup/initiative-logic/lambdas/backup_configurations/lambda_function.py:847-878 | the snapshot is stored at its key exactly when the export succeeded and the bucket is reachable; the summary gains the service's name, contribution and key exactly when the count fields are present too |
| `BackupConfigurations.FirstFailure` | iniciativas-backup/initiative-logic/lambdas/backup_configurations/lambda_function.py:897-1008 | every service before the index exports, and the service at the index, if any, does not |
| `BackupConfigurations.CollectFails` | iniciativas-backup/initiative-logic/lambdas/backup_configurations/lambda_function.py:897-1008 | the run succeeds exactly when every service exports, and otherwise fails with the exporter or count error of the first service that does not |
| `BackupConfigurations.SaveNext` | iniciativas-backup/initiative-logic/lambdas/backup_configurations/lambda_function.py:897-995 | one service of the loop: on success it is saved and added to the summary; on failure the store holds the snapshots of the services attempted, or nothing in an unusable bucket |
| `BackupConfigurations.RunPlan` | iniciativas-backup/initiative-logic/lambdas/backup_configurations/lambda_function.py:897-1008 | the status is 200 exactly when every export, save and count succeeds; then the summary is the specification's and the store holds every snapshot and the summary object; 500 carries no summary, and leaves the snapshots of the services up to and including the first that fails, or nothing at all in an unusable bucket |
| `BackupConfigurations.Handle` | iniciativas-backup/initiative-logic/lambdas/backup_configurations/lambda_function.py:885-1008 | the same for the plan chosen by the `INCLUDE_*` switches, including the snapshots a 500 leaves behind |
| `MigrateLayout.ParseArgs` | iniciativas-backup/scripts/migrate_configurations_layout.py:54-96 | the options are accepted exactly when every trimmed non-empty criticality is a known one, and then are those criticalities; otherwise an argument error; the service filter is absent exactly when `--services` is empty, and holds no empty name |
| `MigrateLayout.DefaultCriticalities` | iniciativas-backup/scripts/migrate_configurations_layout.py:59-77 | the default `--criticalities` text parses back to the three criticalities |
| `MigrateLayout.CriticalitiesTrimmed` | iniciativas-backup/scripts/migrate_configurations_layout.py:77 | the known criticalities come through `strip()` unchanged |
| `MigrateLayout.SplitPair` | iniciativas-backup/scripts/migrate_configurations_layout.py:116 | `split("=", 1)`: the name holds no `=` and name, `=` and value rebuild the part |
| `MigrateLayout.SplitPairOf` | iniciativas-backup/scripts/migrate_configurations_layout.py:116 | a part built from a name without `=` splits back into that name and value |
| `MigrateLayout.Head6` | iniciativas-backup/scripts/migrate_configurations_layout.py:114 | `parts[:6]`: a prefix of at most six parts, all of them when there are no more |
| `MigrateLayout.MetaDomain` | iniciativas-backup/scripts/migrate_configurations_layout.py:113-117 | a name is in the metadata exactly when one of the parts is `name=...` |
| `MigrateLayout.MetaValue` | iniciativas-backup/scripts/migrate_configurations_layout.py:113-117 | a name's value is that of the last part carrying it |
| `MigrateLayout.ParseSuffix` | iniciativas-backup/scripts/migrate_configurations_layout.py:107-118 | a key outside the prefix is a ValueError; otherwise the prefix and the suffix rebuild the key and the metadata is read from the first six segments of the suffix |
| `MigrateLayout.Legacy` | iniciativas-backup/scripts/migrate_configurations_layout.py:133-136 | a legacy head exists exactly when the key contains `/backup_type=configurations/`; head and suffix rebuild the key and the head ends at the first occurrence |
| `MigrateLayout.Destination` | iniciativas-backup/scripts/migrate_configurations_layout.py:133-146 | a destination exists exactly for configuration keys; it is `backup/configurations/` followed by the suffix, and never the source key |
| `MigrateLayout.NoEarlierMarker` | iniciativas-backup/scripts/migrate_configurations_layout.py:133 | within a legacy prefix the marker occurs only at its own end |
| `MigrateLayout.LegacyKeyMoves` | iniciativas-backup/scripts/migrate_configurations_layout.py:133-146 | a key under a legacy prefix moves to the new root with the same suffix |
| `MigrateLayout.SnapshotUnderLegacyPrefix` | iniciativas-backup/scripts/migrate_configurations_layout.py:100 | every snapshot the configuration backup writes lies under the Critico legacy prefix |
| `MigrateLayout.SnapshotSuffixParts` | iniciativas-backup/scripts/migrate_configurations_layout.py:112-114 | the first six suffix segments of a snapshot are its initiative, service and hour segments |
| `MigrateLayout.HourNames` | iniciativas-backup/scripts/migrate_configurations_layout.py:112 | the hour segments are named year, month, day and hour |
| `MigrateLayout.SnapshotMeta` | iniciativas-backup/scripts/migrate_configurations_layout.py:139-140 | the metadata of a snapshot's suffix names its initiative and service |
| `MigrateLayout.InitiativeMeta` | iniciativas-backup/scripts/migrate_configurations_layout.py:139 | the metadata names the snapshot's initiative |
| `MigrateLayout.ServiceMeta` | iniciativas-backup/scripts/migrate_configurations_layout.py:140 | the metadata names the snapshot's service folder |
| `MigrateLayout.SnapshotMigrates` | iniciativas-backup/scripts/migrate_configurations_layout.py:133-146 | every snapshot the configuration backup writes is a legacy key that moves to the new root with its suffix, and its initiative and service filters read its own initiative and service |
| `MigrateLayout.MessageKinds` | iniciativas-backup/scripts/migrate_configurations_layout.py:217-221 | a message starts with `error` exactly for a failed copy, `migrated` exactly for a migration with or without delete, `skip` exactly for the three filters, `verify failed` exactly for a failed verification |
| `MigrateLayout.OpensOther` | iniciativas-backup/scripts/migrate_configurations_layout.py:217-221 | a message opening with one kind's letter cannot start with another kind's word |
| `MigrateLayout.Screen` | iniciativas-backup/scripts/migrate_configurations_layout.py:130-144 | a key without the marker is skipped as not a configuration; then the initiative filter, then the service filter; a key that passes matches both filters |
| `MigrateLayout.HeadSize` | iniciativas-backup/scripts/migrate_configurations_layout.py:121-127 | the head succeeds exactly when the bucket is reachable, answers no object exactly when the key is missing, and otherwise the object's size |
| `MigrateLayout.CopyEffect` | iniciativas-backup/scripts/migrate_configurations_layout.py:130-185 | a key raises exactly when it passes the screen and the bucket is unreachable, always with NoSuchBucket; an unreachable bucket, a dry run or a screened key leaves the objects unchanged |
| `MigrateLayout.CopyOne` | iniciativas-backup/scripts/migrate_configurations_layout.py:130-185 | a screened key is reported and nothing changes; it raises exactly when an unscreened key meets an unreachable bucket, with nothing changed; otherwise the outcome is decided in order: an existing destination under `skip` is Existed, a run without `--yes` is DryRun, a missing source is a failed copy, then Migrated without `--delete-source`, a refused delete in a locked bucket, or Migrated and deleted; a migration copies the source to the destination, and with `--delete-source` then deletes the source; the size check never fails after a successful copy; the outcome and the new objects are those of `MigrateLayout.CopyEffect` |
| `MigrateLayout.ConfigKeys` | iniciativas-backup/scripts/migrate_configurations_layout.py:198-202 | a listed key is processed exactly when it contains the marker |
| `MigrateLayout.FilterKeys` | iniciativas-backup/scripts/migrate_configurations_layout.py:198-202 | the listing loop keeps exactly those keys, in order |
| `MigrateLayout.GatherKeys` | iniciativas-backup/scripts/migrate_configurations_layout.py:194-202 | the keys to process are those of every requested criticality's legacy prefix, in order |
| `MigrateLayout.Migrations` | iniciativas-backup/scripts/migrate_configurations_layout.py:211-214 | a completed loop has one outcome per key |
| `MigrateLayout.MigrationsOutcomes` | iniciativas-backup/scripts/migrate_configurations_layout.py:211-214 | each outcome of a completed loop is that of `copy_one` on its key against the objects the earlier copies left |
| `MigrateLayout.MigrationsStop` | iniciativas-backup/scripts/migrate_configurations_layout.py:211-214 | once a copy raises, the loop raises that error and later keys are not copied |
| `MigrateLayout.MigrationsStep` | iniciativas-backup/scripts/migrate_configurations_layout.py:211-214 | a prefix one key longer takes one more `copy_one` step |
| `MigrateLayout.MigrationsRaise` | iniciativas-backup/scripts/migrate_configurations_layout.py:211-214 | the loop raises exactly when the bucket is unreachable and some key passes the screen |
| `MigrateLayout.RaisedError` | iniciativas-backup/scripts/migrate_configurations_layout.py:121-127 | the error raised is NoSuchBucket |
| `MigrateLayout.UnreachableKeepsObjects` | iniciativas-backup/scripts/migrate_configurations_layout.py:121-127 | in an unreachable bucket no object changes |
| `MigrateLayout.DryRunKeepsObjects` | iniciativas-backup/scripts/migrate_configurations_layout.py:156-157 | without `--yes` the loop changes no object |
| `MigrateLayout.CopyNext` | iniciativas-backup/scripts/migrate_configurations_layout.py:212-214 | one turn of the copy loop is one `copy_one` step against the current objects: the store becomes the step's objects, the outcome is appended, or the step's error is raised; screened keys report their screen |
| `MigrateLayout.Run` | iniciativas-backup/scripts/migrate_configurations_layout.py:188-237 | no legacy key exits 0 with no result; otherwise the results and the final objects are those of `MigrateLayout.Migrations` over the gathered keys from the initial objects, the run raises exactly when the loop does and with its error, the exit code is 1 exactly when some message starts with `error`, no verification fails, and a dry run changes nothing |
| `MigrateLayout.ErrorMessages` | iniciativas-backup/scripts/migrate_configurations_layout.py:220-237 | the messages starting with `error` are exactly those of failed copies |
| `CleanupConfigs.Discovered` | iniciativas-backup/scripts/cleanup_s3_backup_configs.py:46-49 | at most one bucket per tagged resource |
| `CleanupConfigs.DiscoveredMembers` | iniciativas-backup/scripts/cleanup_s3_backup_configs.py:46-49 | a bucket is discovered exactly when some tagged resource is an S3 ARN naming it |
| `CleanupConfigs.DiscoverBuckets` | iniciativas-backup/scripts/cleanup_s3_backup_configs.py:38-50 | the discovery loop keeps the names of the S3 ARNs, in order |
| `CleanupConfigs.ArnName` | iniciativas-backup/scripts/cleanup_s3_backup_configs.py:48-49 | the name read from a bucket's ARN is the bucket's name |
| `CleanupConfigs.NoInventoryQuiet` | iniciativas-backup/scripts/cleanup_s3_backup_configs.py:62 | "No inventory to delete" never counts as a failure |
| `CleanupConfigs.NoNotificationQuiet` | iniciativas-backup/scripts/cleanup_s3_backup_configs.py:91 | "No notification to remove" never counts as a failure |
| `CleanupConfigs.NoMatchQuiet` | iniciativas-backup/scripts/cleanup_s3_backup_configs.py:102 | "No matching notification found" never counts as a failure |
| `CleanupConfigs.SkippedMessage` | iniciativas-backup/scripts/cleanup_s3_backup_configs.py:80 | a skipped inventory delete counts as a failure only through its error code |
| `CleanupConfigs.InventoryFailure` | iniciativas-backup/scripts/cleanup_s3_backup_configs.py:53-80 | `remove_inventory` counts as a failure only when the error code it quotes contains "Failed" |
| `CleanupConfigs.NotificationFailure` | iniciativas-backup/scripts/cleanup_s3_backup_configs.py:83-109 | `remove_notification` counts as a failure exactly when the get fails with a code other than NoSuchBucket/NoSuchConfiguration, or the rule was found and the put fails |
| `CleanupConfigs.WithoutTrigger` | iniciativas-backup/scripts/cleanup_s3_backup_configs.py:97 | the comprehension keeps exactly the queue configurations whose Id is not the trigger's, so none is the trigger |
| `CleanupConfigs.WithoutTriggerAppend` | iniciativas-backup/scripts/cleanup_s3_backup_configs.py:97 | filtering distributes over concatenation |
| `CleanupConfigs.WithoutTriggerUnchanged` | iniciativas-backup/scripts/cleanup_s3_backup_configs.py:94-102 | filtering leaves the queue list as it was exactly when it holds no trigger |
| `CleanupConfigs.Removed` | iniciativas-backup/scripts/cleanup_s3_backup_configs.py:94-98 | the new configuration holds no trigger, always has a queue list, and keeps the other notification kinds |
| `CleanupConfigs.RemovedChanges` | iniciativas-backup/scripts/cleanup_s3_backup_configs.py:100-102 | the configuration is unchanged (so nothing is put) exactly when it has a queue list without the trigger |
| `CleanupConfigs.RemovedIdempotent` | iniciativas-backup/scripts/cleanup_s3_backup_configs.py:94-98 | removing twice equals removing once |
| `CleanupConfigs.RemovedUndoesTrigger` | iniciativas-backup/scripts/cleanup_s3_backup_configs.py:94-98 | removing the trigger that discovery added gives back the configuration it started from |
| `CleanupConfigs.WithoutId` | iniciativas-backup/scripts/cleanup_s3_backup_configs.py:72 | deleting an inventory configuration removes exactly the entries with its Id, and at least one when there is one |
| `CleanupConfigs.Drop` | iniciativas-backup/scripts/cleanup_s3_backup_configs.py:66-75 | dropping a set of Ids removes exactly the entries that carry one of them |
| `CleanupConfigs.DropMore` | iniciativas-backup/scripts/cleanup_s3_backup_configs.py:72 | deleting one more Id from a list that already lost some Ids is dropping all of them |
| `CleanupConfigs.DropShorter` | iniciativas-backup/scripts/cleanup_s3_backup_configs.py:72 | dropping the Id of a listed configuration shortens the list |
| `CleanupConfigs.Buckets.DeleteInventory` | iniciativas-backup/scripts/cleanup_s3_backup_configs.py:57 | succeeds exactly when the delete is allowed; then the configurations with the Id go, otherwise nothing changes and the error carries its code |
| `CleanupConfigs.Buckets.AllowedIds` | iniciativas-backup/scripts/cleanup_s3_backup_configs.py:66-75 | the Ids the fallback can delete are exactly the non-empty listed Ids whose delete S3 carries out |
| `CleanupConfigs.Buckets.Surviving` | iniciativas-backup/scripts/cleanup_s3_backup_configs.py:66-75 | after the fallback a configuration remains exactly when it was listed and has no Id, an empty Id, or an Id whose delete is refused |
| `CleanupConfigs.Buckets.FallbackShrinks` | iniciativas-backup/scripts/cleanup_s3_backup_configs.py:66-77 | the fallback shortens the list exactly when it reports a deletion, and otherwise leaves it as it was |
| `CleanupConfigs.Buckets.FallbackStep` | iniciativas-backup/scripts/cleanup_s3_backup_configs.py:67-75 | one more listed configuration adds its Id to the deleted ones exactly when its delete is carried out |
| `CleanupConfigs.Buckets.DeleteStep` | iniciativas-backup/scripts/cleanup_s3_backup_configs.py:71-75 | the delete of a listed Id goes through exactly when it is allowed and the Id is still listed; either way the list is the original without the Ids deleted so far |
| `CleanupConfigs.Buckets.DeleteListed` | iniciativas-backup/scripts/cleanup_s3_backup_configs.py:64-77 | the fallback reports a deletion exactly when some listed configuration with an Id may be deleted; the bucket's list then loses exactly the configurations whose Id could be deleted (`Surviving`), and nothing else changes |
| `CleanupConfigs.Buckets.DeleteNext` | iniciativas-backup/scripts/cleanup_s3_backup_configs.py:67-75 | one turn of the fallback loop: after the first i+1 listed entries the bucket's list is the original without every Id deleted so far, and the flag says whether some delete went through |
| `CleanupConfigs.Buckets.RemoveInventory` | iniciativas-backup/scripts/cleanup_s3_backup_configs.py:53-80 | the report is that of the outcome table; when the known Id can be deleted the list loses exactly that Id; an ok report after a refused first delete leaves exactly the surviving configurations; a report that is not ok changes nothing; only the bucket's inventory list changes |
| `CleanupConfigs.Buckets.RemoveNotification` | iniciativas-backup/scripts/cleanup_s3_backup_configs.py:83-109 | the report is that of the outcome table; when ok the bucket's configuration is the one without the trigger, otherwise nothing changes; inventories are untouched |
| `CleanupConfigs.CleanAll` | iniciativas-backup/scripts/cleanup_s3_backup_configs.py:159-179 | the reports are exactly `CleanReports`: one pair per bucket, each the two steps of that bucket against the state the buckets before it left, and the new inventories and notifications are those the steps give in order; errors are flagged exactly when some report counts as a failure |
| `CleanupConfigs.Buckets.CleanReportsAt` | iniciativas-backup/scripts/cleanup_s3_backup_configs.py:161-176 | the j-th report pair is the j-th bucket's inventory and notification reports against the state the buckets before it left |
| `CleanupConfigs.Buckets.LaterStepsKeep` | iniciativas-backup/scripts/cleanup_s3_backup_configs.py:161-176 | the steps for later buckets leave every other bucket's inventories and notifications as they were |
| `CleanupConfigs.Buckets.CleanedAlone` | iniciativas-backup/scripts/cleanup_s3_backup_configs.py:161-176 | when no bucket is named twice, each bucket's reports are those of its original configurations, its final configurations are what cleaning it alone gives, and an ok notification step leaves the original configuration without the trigger |
| `CleanupConfigs.Run` | iniciativas-backup/scripts/cleanup_s3_backup_configs.py:112-179 | a session error exits 2; a discovery error exits 2 for bad credentials and is raised otherwise; no bucket exits 0; a declined prompt exits 1; a good session followed by a discovery error, no bucket or a declined prompt reports nothing and changes nothing; a dry run changes nothing; otherwise every target bucket is cleaned in order, the reports and the new state are those of `CleanReports` and the steps, and the exit code is 1 exactly when some report counts as a failure |
| `ReportSummary.FindLatestCsv` | iniciativas-backup/scripts/s3_batch_report_summary.py:25-36 | none exactly when no key ends in `.csv` (any case); otherwise the key of a newest such object, the first among equals |
| `ReportSummary.Cell` | iniciativas-backup/scripts/s3_batch_report_summary.py:54-55 | a cell is read exactly when the row has the column |
| `ReportSummary.FirstTruthyPicks` | iniciativas-backup/scripts/s3_batch_report_summary.py:54-55 | the `or` chain gives the empty string exactly when no candidate column is non-empty, otherwise the first non-empty one |
| `ReportSummary.SampleOf` | iniciativas-backup/scripts/s3_batch_report_summary.py:62 | a sample holds the first (at most six) columns of the row, each with its cell |
| `ReportSummary.BumpCounts` | iniciativas-backup/scripts/s3_batch_report_summary.py:57-59 | `d[k] = d.get(k, 0) + 1`: the key's count grows by one, every other count stays, and the names stay distinct |
| `ReportSummary.TallyCounts` | iniciativas-backup/scripts/s3_batch_report_summary.py:57-59 | the tally of a list counts each name as often as it occurs, has exactly the list's names, and sums to the list's length |
| `ReportSummary.Results` | iniciativas-backup/scripts/s3_batch_report_summary.py:54 | one result/status per row |
| `ReportSummary.Errors` | iniciativas-backup/scripts/s3_batch_report_summary.py:55-59 | only non-empty error codes are counted, at most one per row |
| `ReportSummary.Samples` | iniciativas-backup/scripts/s3_batch_report_summary.py:61-62 | at most five samples |
| `ReportSummary.SamplesFirst` | iniciativas-backup/scripts/s3_batch_report_summary.py:61-62 | the samples are those of the first five rows (all rows when fewer) |
| `ReportSummary.SummaryBounds` | iniciativas-backup/scripts/s3_batch_report_summary.py:46-62 | the result counts sum to the row total, the error counts to the number of rows with an error code, and there are at most five samples of at most six columns |
| `ReportSummary.SummaryCounts` | iniciativas-backup/scripts/s3_batch_report_summary.py:57-59 | each result is counted as often as rows report it, and the empty error code is never counted |
| `ReportSummary.Summarize` | iniciativas-backup/scripts/s3_batch_report_summary.py:39-62 | the row loop computes the summary of the specification |
| `ReportSummary.CountRow` | iniciativas-backup/scripts/s3_batch_report_summary.py:51-62 | one turn of the row loop updates total, both tallies and the samples as the specification does for one row more |
| `ReportSummary.RanksTotal` | iniciativas-backup/scripts/s3_batch_report_summary.py:67-71 | the printing order (count descending, then name) ranks any two entries |
| `ReportSummary.RanksTransitive` | iniciativas-backup/scripts/s3_batch_report_summary.py:67-71 | the printing order is transitive |
| `ReportSummary.Insert` | iniciativas-backup/scripts/s3_batch_report_summary.py:67-72 | inserting into a ranked tally keeps it ranked and adds exactly the entry |
| `ReportSummary.Rank` | iniciativas-backup/scripts/s3_batch_report_summary.py:67-72 | `sorted(...)` is a ranked permutation of the tally |
| `ReportSummary.Run` | iniciativas-backup/scripts/s3_batch_report_summary.py:79-96 | exit 1 with no summary exactly when no report CSV is listed; otherwise exit 0 with the summary of the newest CSV's rows |
| `SimpleConfig.NormalizePrefix` | iniciativas-backup/simple-backup-app/app/config.py:29-34 | an empty prefix stays empty; any other prefix ends with `/`, keeps its text, and gains exactly one `/` when it lacked one |
| `SimpleConfig.NormalizeIdempotent` | iniciativas-backup/simple-backup-app/app/config.py:29-34 | normalising a prefix twice equals normalising it once |
| `SimpleConfig.RequiredText` | iniciativas-backup/simple-backup-app/app/config.py:14-18 | a required field is accepted exactly when present and textual, with its text |
| `SimpleConfig.PrefixField` | iniciativas-backup/simple-backup-app/app/config.py:19-34 | a prefix field is valid exactly when absent or textual; absent reads as the empty default, present as its normalised text |
| `SimpleConfig.OptionalText` | iniciativas-backup/simple-backup-app/app/config.py:20-23 | `restore_bucket` is valid when absent, null or text, and holds a bucket exactly when it is text |
| `SimpleConfig.AccountAccepted` | iniciativas-backup/simple-backup-app/app/config.py:11-34 | an accepted account carries the entry's five required fields, normalised prefixes, and no restore bucket exactly when none was given |
| `SimpleConfig.AccountRejected` | iniciativas-backup/simple-backup-app/app/config.py:11-34 | an account is refused exactly when the entry is not a mapping, misses a required text field, or has a badly typed prefix or restore bucket |
| `SimpleConfig.EnsureUniqueAccountIds` | iniciativas-backup/simple-backup-app/app/config.py:43-52 | the accounts pass unchanged exactly when the ids are distinct; otherwise the error names the first id seen a second time |
| `SimpleConfig.ValidateAllEntries` | iniciativas-backup/simple-backup-app/app/config.py:41 | the account list validates exactly when every entry does, and its i-th account is the i-th entry's |
| `SimpleConfig.StrategyOf` | iniciativas-backup/simple-backup-app/app/config.py:40 | the restore strategy defaults to copy and otherwise must be the literal `copy` or `download` |
| `SimpleConfig.ValidatedConfig` | iniciativas-backup/simple-backup-app/app/config.py:37-52 | a valid configuration has one account per entry, at most ten, distinct ids and normalised prefixes; more than ten entries are refused |
| `SimpleConfig.DuplicateRefused` | iniciativas-backup/simple-backup-app/app/config.py:45-50 | two valid entries with the same id make the configuration invalid |
| `SimpleConfig.LoadConfig` | iniciativas-backup/simple-backup-app/app/config.py:55-69 | a missing file raises FileNotFoundError; otherwise the result is the validation of the document, with failures surfaced as ValueError |
| `SimpleS3Service.KeyName` | iniciativas-backup/simple-backup-app/app/s3_service.py:92 | the last `/`-separated piece of a key has no `/` and ends the key |
| `SimpleS3Service.DestinationUnderPrefix` | iniciativas-backup/simple-backup-app/app/s3_service.py:91-93 | the copy destination lies under the chosen prefix, ends with the object's key name, and keeps that key name when the prefix ends with `/` |
| `SimpleS3Service.CopyTarget` | iniciativas-backup/simple-backup-app/app/s3_service.py:87-93 | copying fails with ValueError exactly when neither the request nor the account names a restore bucket; the request's bucket and prefix win over the account's |
| `SimpleS3Service.ListingPrefix` | iniciativas-backup/simple-backup-app/app/s3_service.py:59 | objects are listed under the account's backup prefix followed by the requested prefix |
| `SimpleS3Service.OutcomeMeaning` | iniciativas-backup/simple-backup-app/app/s3_service.py:72-135 | a restore succeeds with the request's strategy and key; an unknown strategy is a ValueError; a copy reports `s3://bucket/key` of its target; with a target and no AWS failure it succeeds |
| `SimpleS3Service.RestoreService.constructor` | iniciativas-backup/simple-backup-app/app/s3_service.py:38-41 | a new service holds the configuration and an empty audit log |
| `SimpleS3Service.RestoreService.ListAccounts` | iniciativas-backup/simple-backup-app/app/s3_service.py:46-47 | the configured accounts, as configured |
| `SimpleS3Service.RestoreService.GetAccount` | iniciativas-backup/simple-backup-app/app/s3_service.py:49-53 | the first account with the id; KeyError naming the id exactly when none has it |
| `SimpleS3Service.RestoreService.ListBackupObjects` | iniciativas-backup/simple-backup-app/app/s3_service.py:55-67 | fails exactly when the account is unknown or its session cannot be built; otherwise lists the account's backup bucket under its listing prefix |
| `SimpleS3Service.RestoreService.Restore` | iniciativas-backup/simple-backup-app/app/s3_service.py:72-78 | KeyError exactly for an unknown account; otherwise the outcome for the first matching account; a success is appended to the audit log and a failure leaves it as it was |
| `SimpleS3Service.RestoreService.CopyObject` | iniciativas-backup/simple-backup-app/app/s3_service.py:86-114 | the copy outcome, failing only with ValueError, ClientError or RuntimeError; the audit log grows by exactly the success |
| `SimpleS3Service.RestoreService.PresignedUrl` | iniciativas-backup/simple-backup-app/app/s3_service.py:116-135 | the download outcome, failing only with ClientError or RuntimeError; the audit log grows by exactly the success |
| `SimpleS3Service.RestoreService.GetAuditLog` | iniciativas-backup/simple-backup-app/app/s3_service.py:80-81 | the audit log, every entry of which is a successful restore |
| `AdminConfig.IndexHolds` | iniciativas-backup/app/config.py:35-36 | the dictionary built from the accounts is well formed, has exactly the accounts' keys, and maps each key to the last account with that key |
| `AdminConfig.IndexWellFormed` | iniciativas-backup/app/config.py:35-36 | the built dictionary's insertion order lists each of its keys once |
| `AdminConfig.IndexKeys` | iniciativas-backup/app/config.py:35-36 | a key is in the dictionary exactly when some account carries it |
| `AdminConfig.IndexLast` | iniciativas-backup/app/config.py:35-36 | a later account with the same key replaces an earlier one |
| `AdminConfig.Accounts` | iniciativas-backup/app/config.py:38-40 | `accounts` lists one account per key, in first-insertion order, each the dictionary's value for its key |
| `AdminConfig.Get` | iniciativas-backup/app/config.py:42-46 | the account stored under the key, or KeyError naming the key exactly when there is none |
| `AdminConfig.MissingKey` | iniciativas-backup/app/config.py:64-76 | no key is missing exactly when the five required keys are present; a reported key is required and absent |
| `AdminConfig.ParseEntry` | iniciativas-backup/app/config.py:61-76 | an entry parses exactly when it is a mapping with the five required keys; the account takes its fields, the account id as text, absent ARNs as null and `son` as the default generation; failures are ValueError naming the missing key |
| `AdminConfig.ParseEntriesAll` | iniciativas-backup/app/config.py:60-77 | the entry list parses exactly when every entry does, account by account; otherwise the error is that of the first entry that fails |
| `AdminConfig.PrefixErrorStays` | iniciativas-backup/app/config.py:60-77 | once an entry fails, no later entry changes the error |
| `AdminConfig.LoadedConfig` | iniciativas-backup/app/config.py:49-82 | a loaded configuration is well formed, non-empty, keyed by the parsed accounts with the last one winning; every refusal of a readable document is a ValueError |
| `AdminConfig.LoadConfig` | iniciativas-backup/app/config.py:49-82 | a missing file raises FileNotFoundError; otherwise the result is the loading of the document |
| `AdminManager.DescribeAccounts` | iniciativas-backup/app/manager.py:23-30 | the description map has exactly the configured keys, each with its account's description |
| `AdminManager.DescribeOrdered` | iniciativas-backup/app/manager.py:23-30 | building the map over `accounts` in order gives the same keys and descriptions as the configuration |
| `AdminManager.DescribeListKeys` | iniciativas-backup/app/manager.py:23-30 | the comprehension's keys are exactly the listed accounts' keys |
| `AdminManager.DescribeListLast` | iniciativas-backup/app/manager.py:23-30 | each key of the comprehension maps to the description of an account with that key |
| `AdminManager.CompactStamp` | iniciativas-backup/app/manager.py:70 | `%Y%m%d%H%M%S` gives fourteen digits |
| `AdminManager.CompactStampInjective` | iniciativas-backup/app/manager.py:70 | equal compact stamps come from the same second |
| `AdminManager.ExecutionName` | iniciativas-backup/app/manager.py:68-71 | the execution name is the `key-suffix-stamp` text cut to at most 80 characters, and is a prefix of it |
| `AdminManager.ExecutionNamesDistinct` | iniciativas-backup/app/manager.py:68-71 | when key and suffix leave room for the stamp, equal execution names come from the same second |
| `AdminManager.LongKeyNameIgnoresTime` | iniciativas-backup/app/manager.py:68-71 | an account key of 80 characters or more gives the same execution name at every moment |
| `AdminManager.ExecutionInputContents` | iniciativas-backup/app/manager.py:52-58 | the execution input holds BackupType, Criticality and Generation plus the payload's keys, the payload overriding the defaults |
| `AdminManager.GenerationFallsBack` | iniciativas-backup/app/manager.py:55 | an empty or absent generation falls back to the account's default generation |
| `AdminManager.TriggerBackup` | iniciativas-backup/app/manager.py:39-65 | an unknown key fails as `get` does; an account without a backup ARN fails with ValueError; a session failure is passed on; otherwise the execution starts on the account's ARN with the execution name and input |
| `AdminManager.ArnCheckedFirst` | iniciativas-backup/app/manager.py:47-51 | an account without a backup ARN is refused before any session is built or execution started |
| `AdminManager.TriggerNeedsStart` | iniciativas-backup/app/manager.py:47-65 | a successful trigger implies a known account with a backup ARN and a session, and is the start answer |
| `RecoveryBrowser.Auth` | iniciativas-backup/recovery-browser/backend/app/main.py:18-20 | a request passes exactly when an API token is configured and the header equals it; otherwise 401 Unauthorized |
| `RecoveryBrowser.NoTokenRefusesAll` | iniciativas-backup/recovery-browser/backend/app/main.py:18-20 | without a configured API token every request is refused, whatever header it carries |
| `RecoveryBrowser.RoleArnInjective` | iniciativas-backup/recovery-browser/backend/app/main.py:38 | different account ids give different role ARNs |
| `RecoveryBrowser.Assume` | iniciativas-backup/recovery-browser/backend/app/main.py:23-45 | the current session is kept exactly when no role name is set or the caller is already the account; otherwise the role `arn:aws:iam::<account>:role/<name>` is assumed, and only an assume-role failure fails |
| `RecoveryBrowser.CentralBuckets` | iniciativas-backup/recovery-browser/backend/app/main.py:48-52 | a bucket is central exactly when it is listed, named, and its name contains the pattern |
| `RecoveryBrowser.CentralBucketsExact` | iniciativas-backup/recovery-browser/backend/app/main.py:48-52 | membership in the central buckets is exactly a listed non-empty name containing the pattern |
| `RecoveryBrowser.FieldOfSegment` | iniciativas-backup/recovery-browser/backend/app/main.py:70 | a `name=value` segment contributes its name and the text up to the next `=` |
| `RecoveryBrowser.FieldsOfKeys` | iniciativas-backup/recovery-browser/backend/app/main.py:70 | the parsed fields are named exactly by the key's segments holding `=` |
| `RecoveryBrowser.FieldsOfLast` | iniciativas-backup/recovery-browser/backend/app/main.py:70 | a later segment with the same name overrides an earlier one |
| `RecoveryBrowser.FieldsOfField` | iniciativas-backup/recovery-browser/backend/app/main.py:70 | appending a `name=value` segment sets that field and keeps the others |
| `RecoveryBrowser.IncrementalManifestFields` | iniciativas-backup/recovery-browser/backend/app/main.py:57-70 | the fields parsed from a manifest key written by the incremental backup are its criticality, backup type, initiative, bucket and window |
| `RecoveryBrowser.IncrementalManifestListed` | iniciativas-backup/recovery-browser/backend/app/main.py:57-70 | a manifest key written by the incremental backup ends in `.csv` and lies under its criticality's listing prefix |
| `RecoveryBrowser.PointOf` | iniciativas-backup/recovery-browser/backend/app/main.py:70-84 | an S3 point names the listed bucket and the object's key |
| `RecoveryBrowser.PagePointsExact` | iniciativas-backup/recovery-browser/backend/app/main.py:66-85 | a page contributes exactly the points of its `.csv` objects |
| `RecoveryBrowser.PrefixesPointsFrom` | iniciativas-backup/recovery-browser/backend/app/main.py:63-86 | every S3 point comes from a `.csv` object listed in the bucket under one of the criticality prefixes |
| `RecoveryBrowser.AppendPage` | iniciativas-backup/recovery-browser/backend/app/main.py:66-85 | the object loop appends the page's points to the items |
| `RecoveryBrowser.ListS3RecoveryPoints` | iniciativas-backup/recovery-browser/backend/app/main.py:55-86 | the prefix and page loops compute the points of the three criticality prefixes, in listing order |
| `RecoveryBrowser.BackupPointOf` | iniciativas-backup/recovery-browser/backend/app/main.py:98-112 | a backup point names its vault and the recovery point's ARN |
| `RecoveryBrowser.VaultPagePoints` | iniciativas-backup/recovery-browser/backend/app/main.py:97-113 | one backup point per recovery point of the page, in order |
| `RecoveryBrowser.VaultPointsAll` | iniciativas-backup/recovery-browser/backend/app/main.py:93-113 | a vault's points all name the vault, and every recovery point listed for it appears |
| `RecoveryBrowser.BackupPointsVaults` | iniciativas-backup/recovery-browser/backend/app/main.py:89-114 | every backup point names a listed vault |
| `RecoveryBrowser.AppendVaultPage` | iniciativas-backup/recovery-browser/backend/app/main.py:97-113 | the recovery-point loop appends the page's points |
| `RecoveryBrowser.AppendVault` | iniciativas-backup/recovery-browser/backend/app/main.py:94-113 | the page loop appends the vault's points |
| `RecoveryBrowser.ListBackupRecoveryPoints` | iniciativas-backup/recovery-browser/backend/app/main.py:89-114 | the vault loop computes the points of every vault, in listing order |
| `RecoveryBrowser.BucketsPointsFrom` | iniciativas-backup/recovery-browser/backend/app/main.py:132-133 | every collected S3 point comes from one of the buckets, listed under a criticality prefix |
| `RecoveryBrowser.RecoveryPoints` | iniciativas-backup/recovery-browser/backend/app/main.py:128-135 | the endpoint computes the response of the specification |
| `RecoveryBrowser.UnauthorizedFirst` | iniciativas-backup/recovery-browser/backend/app/main.py:128-130 | an unauthorised request is refused before any session, listing or vault is consulted |
| `RecoveryBrowser.ResponseFromCentralBuckets` | iniciativas-backup/recovery-browser/backend/app/main.py:128-135 | a response names the requested account; its S3 points come from central buckets under the criticality prefixes, its backup points from listed vaults |
| `Listings.Newest` | iniciativas-backup/scripts/restore_configurations.py:49-61 | none exactly when no listed key is accepted; otherwise an accepted key no other accepted key is strictly newer than, the first such in listing order, which is `NewestOf` |
| `Listings.Consider` | iniciativas-backup/scripts/restore_configurations.py:58-59 | one step of the newest-object scan keeps the newest accepted object of the prefix seen so far |
| `Listings.NewestUnique` | iniciativas-backup/scripts/restore_configurations.py:49-61 | at most one position is the first of the newest accepted objects |
| `Listings.NewestOf` | iniciativas-backup/scripts/restore_configurations.py:49-61 | the chosen position, when there is one, is the first of the newest accepted objects |
| `Stamps.WindowLabelInjective` | iniciativas-backup/initiative-logic/lambdas/incremental_backup/lambda_function.py:101 | two valid instants with the same `%Y%m%dT%H%MZ` label agree to the minute |
| `Stamps.IsoRoundTrip` | iniciativas-backup/initiative-logic/lambdas/filter_inventory/utils.py:28-47 | parsing the ISO text of a valid instant gives the instant back |
| `ObjectStore.Lookup` | iniciativas-backup/initiative-logic/lambdas/filter_inventory/utils.py:28-31 | a read succeeds exactly when the bucket is reachable and the key exists, with the stored body |
| `ObjectStore.Store.Put` | iniciativas-backup/initiative-logic/lambdas/filter_inventory/utils.py:44-48 | a put succeeds exactly when the bucket is reachable, and then stores the body under the key and changes nothing else |
| `ObjectStore.Store.Copy` | iniciativas-backup/initiative-logic/lambdas/launch_batch_job/lambda_function.py:94-98 | a copy succeeds exactly when the source is readable and the destination bucket reachable, and then writes the source body under the destination only; a failed copy changes nothing and answers the read's error code, or NoSuchBucket for the destination |
| `ObjectStore.Store.Delete` | iniciativas-backup/initiative-logic/lambdas/launch_batch_job/lambda_function.py:99 | a delete succeeds exactly when the bucket is reachable and not locked, and then removes only that key; a refused delete answers NoSuchBucket or AccessDenied |
| `Documents.StrOfNumberInjective` | iniciativas-backup/app/config.py:68 | `str()` of two different integers gives different texts |

## Left out

- AWS calls (S3, S3 Control, STS, Step Functions, Lambda, EventBridge, the tagging API, AWS Backup): S3 objects are `ObjectStore.Store`, and every other answer is a parameter, because the services are outside the program.
- Batch Operations: the job is an opaque sink that is given a manifest and answers with a job id, because its copying happens inside AWS.
- gzip decompression, CSV quoting, JSON and YAML parsing: rows are sequences of fields and documents arrive already parsed, because these are library code.
- Date parsing beyond the ISO text of an instant, time zones, and `datetime.now`: instants are records with years limited to 1000..9999 so that `%Y` has four digits, and the clock is a parameter.
- `unquote_plus` URL decoding: a parameter of the event handler, because it is library code.
- uuid and run-id generation: parameters, because they are random or clock-based.
- The fallback wall-clock limit: an oracle that says when time is up, because it depends on elapsed time.
- Floating point: `coverage_pct` and `human_readable_size` are not modelled, because they only format numbers for display.
- The thread pool in the layout migration: copies are modelled one key after another, in listing order, because the model has no concurrency. The copies are not independent. Legacy keys of two criticalities with the same suffix map to the same `backup/configurations/<suffix>` destination (scripts/migrate_configurations_layout.py:100,133-146). Under the pool, the race between the existence check and the copy decides which body lands there and which key reports the skip. The model shows one such order.
- FastAPI routes other than the recovery-points endpoint, templates, flash messages, CLIs, argument parsing, printing and logging are not modelled. This includes the order in which the report summary prints. They are presentation only.
- The pydantic machinery: only the validator bodies of the simple application's configuration are modelled, because the rest is library behaviour.
- `AccountConfig.summary` of the admin application: not modelled, because it is a display string.
- The per-service exporter bodies of the configuration backup and the restorers for Step Functions, Glue, Athena, IAM, DynamoDB and RDS: not modelled, because they are sequences of API calls whose answers the program only forwards. The orchestration around them is modelled.
- `monitor_restore_job`: not modelled, because it is a single describe call.
- aws_utils.py is not part of this model. Its role assumption is the session-error parameter of `AdminManager.TriggerBackup`.
- LaunchBatchJob.Launch: returns the created job's id rather than the full response dictionary.
- IncrementalBackup.CriticalityCache.Get: bucket tags are fixed for the life of the model, so a cached criticality is never stale. In the source the module-level cache survives warm invocations. After a bucket is re-tagged it can answer the old criticality.
- FilterInventory.Run: writes the checkpoint under the requested type (`FilterInventory.IntendedCheckpointType`). With `FORCE_FULL_ON_FIRST_RUN`, lambda_function.py:403 writes it under the forced `full` type instead. The as-written choice is `FilterInventory.ForcedFirstRunStaysForced` (first row of "## Findings").
- FilterInventory.Handle: inherits the corrected checkpoint type from `FilterInventory.Run`.
- ValidateCoverage.OriginalKeyOf: matches the bucket segment exactly (`ValidateCoverage.OriginalKeyExact`). The substring test of validate_backup_coverage.py:89 is `ValidateCoverage.OriginalKey`, and `ValidateCoverage.OtherBucketCountsAsCovered` shows where the two differ (second row of "## Findings").
- ValidateCoverage.BackedUpObjects: inherits the exact segment match from `ValidateCoverage.OriginalKeyOf`, so a key launched for `bucket=src-other` does not count as coverage of `src`.
- ValidateCoverage.ValidateBucket: inherits the exact segment match, so it can report missing keys that the source counts as covered.
- ValidateCoverage.CheckBucket: inherits the exact segment match.
- ValidateCoverage.ExitCode: inherits the exact segment match. Where the source exits 0 on another bucket's keys, the model can exit 1.
- RestoreConfigurations.Run: looks snapshots up under the folders the configuration backup writes (`RestoreConfigurations.BuildPrefixFixed`). The source's `main` goes through `build_prefix`, whose alias map has no entry for iam, eventbridge, stepfunctions or dynamodb (`RestoreConfigurations.AliasMissesWriterFolders`, third row of "## Findings"). So for those services the source finds no snapshot and makes no call, while the model restores one.
- RestoreConfigurations.RestoreS3: the `put_bucket_*` calls always succeed in the model. In the source they are not guarded. A refused call ends `main` with a traceback, and the later buckets and services are not restored.
- RestoreConfigurations.RestoreEventBridge: `put_rule` and `put_targets` always succeed in the model. In the source a refused call ends `main` the same way.
- RestoreConfigurations.ProcessServices: does not stop on a refused S3 or EventBridge write, for the reason given for `RestoreConfigurations.RestoreS3`. It does stop on a load error, as the source does.
- Strings.Lower: folds ASCII letters only. Python's `str.lower` also folds other letters, so a keyword with non-ASCII capitals is compared differently.
- SimpleS3Service.RestoreResult: drops the timestamp of the restore result, because the clock is not modelled.
- CleanupConfigs.Buckets.RemoveInventory: the message quotes the error code. The source's `code or str(e)` fallback for an error without a code is not modelled.
- CleanupConfigs.Buckets.RemoveNotification: the same `code or str(e)` fallback is not modelled.
- AdminConfig.Index: keys are `Scalar` values compared by constructor and value, so `Flag(true)` and `Number(1)` are two keys. Python's dictionaries treat `True` and `1` as the same key, and that collision is not modelled.
- ValidateCoverage.Sample: takes the first 50 keys in sorted order, where the source takes the first 50 in Python's set iteration order, which is unspecified.
- MigrateLayout.CopyOne: the read-back check after a copy always passes in the model, because the store returns what was copied.
- FilterInventory.NormaliseDataKey: states only that the repaired key is no longer than the listed key and that a key without `//` is unchanged. The exact repair is not stated.

## Findings

| source | as written | input that shows it | evidently intended | confidence | as-written member | corrected member |
|---|---|---|---|---|---|---|
| iniciativas-backup/initiative-logic/lambdas/filter_inventory/lambda_function.py:378-403 | with `FORCE_FULL_ON_FIRST_RUN`, an incremental run that finds no checkpoint is forced to a full run, and its checkpoint is written under `full` | `FORCE_FULL_ON_FIRST_RUN=true`, `backup_type=incremental`, no checkpoint for the source: the incremental checkpoint is never written, so every later incremental run is forced full again | only the first run is forced, and its checkpoint is recorded for the incremental type that was requested | not executed | `FilterInventory.ForcedFirstRunStaysForced` | `FilterInventory.IntendedFirstRunRecordsIncremental` |
| iniciativas-backup/scripts/validate_backup_coverage.py:89 | a launched manifest key counts for a bucket when it contains the text `bucket=<name>` anywhere | bucket `src` and a manifest key for `bucket=src-other`: the key counts as coverage of `src` | a key counts only when one of its `/`-separated segments is exactly `bucket=<name>` | not executed | `ValidateCoverage.OtherBucketCountsAsCovered` | `ValidateCoverage.BucketAmongSegments` |
| iniciativas-backup/scripts/restore_configurations.py:37-48 | service folders are found through an alias map that has no entries for iam, stepfunctions, eventbridge or dynamodb | service `iam`: the configuration backup writes snapshots under `iam_roles/`, but the restore script looks under `iam/` and finds none | each service is looked up in the folder that the configuration backup writes | not executed | `RestoreConfigurations.AliasMissesWriterFolders` | `RestoreConfigurations.FixedPrefixFindsSnapshots` |
