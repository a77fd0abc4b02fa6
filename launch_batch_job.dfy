/**
 * The launcher of the inventory pipeline: it moves the filtered manifest
 * from its temporary key to its final place, then submits one S3 Batch
 * Operations copy job. The data, manifest and report paths of a run all
 * carry the hour of one instant.
 */
module LaunchBatchJob {
  import opened Base
  import opened Strings
  import opened Stamps
  import opened ObjectStore

  /** BACKUP_BUCKET_ARN, S3_BACKUP_INICIATIVA and MANIFESTS_BUCKET. */
  datatype Env = Env(backupBucketArn: string, initiative: string, manifestsBucket: string)

  /** The `manifest` object of the event, as `filter_inventory` returns it. */
  datatype ManifestRef = ManifestRef(bucket: Option<string>, key: Option<string>)

  /** The fields of the Step Functions input; a missing one is `None`. */
  datatype LaunchEvent = LaunchEvent(manifest: Option<ManifestRef>, sourceBucket: Option<string>,
                                     backupType: Option<string>, generation: Option<string>,
                                     criticality: Option<string>)

  /** Full backups are fathers, every other type a son. */
  function DefaultGeneration(backupType: string): (r: string)
    ensures r == "father" <==> backupType == "full"
    ensures r == "father" || r == "son"
  {
    if backupType == "full" then "father" else "son"
  }

  // ---------------------------------------------------------------------
  // paths of a run

  /** `year=%Y`, `month=%m`, `day=%d` and `hour=%H` of one instant. */
  function HourSegments(t: DateTime): seq<string>
  {
    ["year=" + Pad(t.year, 4), "month=" + Pad(t.month, 2), "day=" + Pad(t.day, 2), "hour=" + Pad(t.hour, 2)]
  }

  function DataSegments(criticality: string, backupType: string, generation: string, initiative: string,
                        source: string, now: DateTime): seq<string>
  {
    ["backup", "criticality=" + criticality, "backup_type=" + backupType, "generation=" + generation,
     "initiative=" + initiative, "bucket=" + source]
    + HourSegments(now) + ["timestamp=" + RunStamp(now)]
  }

  function ManifestSegments(criticality: string, backupType: string, initiative: string, source: string,
                            now: DateTime): seq<string>
  {
    ["manifests", "criticality=" + criticality, "backup_type=" + backupType, "initiative=" + initiative,
     "bucket=" + source]
    + HourSegments(now)
  }

  function ReportSegments(criticality: string, backupType: string, generation: string, initiative: string,
                          source: string, now: DateTime): seq<string>
  {
    ["reports", "criticality=" + criticality, "backup_type=" + backupType, "generation=" + generation,
     "initiative=" + initiative, "bucket=" + source]
    + HourSegments(now)
  }

  /** The Batch copy target prefix in the central bucket. */
  function DataPrefix(criticality: string, backupType: string, generation: string, initiative: string,
                      source: string, now: DateTime): string
  {
    Join(DataSegments(criticality, backupType, generation, initiative, source, now), '/')
  }

  function ManifestsPrefix(criticality: string, backupType: string, initiative: string, source: string,
                           now: DateTime): string
  {
    Join(ManifestSegments(criticality, backupType, initiative, source, now), '/')
  }

  function ReportsPrefix(criticality: string, backupType: string, generation: string, initiative: string,
                         source: string, now: DateTime): string
  {
    Join(ReportSegments(criticality, backupType, generation, initiative, source, now), '/')
  }

  function FinalManifestKey(criticality: string, backupType: string, initiative: string, source: string,
                            now: DateTime): string
  {
    ManifestsPrefix(criticality, backupType, initiative, source, now) + "/manifest.csv"
  }

  lemma HourSegmentsPlain(t: DateTime)
    ensures NoSep(HourSegments(t), '/')
  {
    var h := HourSegments(t);
    forall i | 0 <= i < |h|
      ensures '/' !in h[i]
    {
      assert IsDigit(h[i][|h[i]| - 1]);
    }
  }

  /**
   * Read back segment by segment, the three paths of a run name the same
   * hour, the data prefix ends with the run stamp of that instant, and the
   * final manifest is `manifest.csv` right under the manifests prefix.
   * Path components never contain a slash.
   */
  lemma {:induction false} RunPathsShareHour(criticality: string, backupType: string, generation: string,
                                            initiative: string, source: string, now: DateTime)
    requires '/' !in criticality && '/' !in backupType && '/' !in generation
    requires '/' !in initiative && '/' !in source
    ensures Split(DataPrefix(criticality, backupType, generation, initiative, source, now), '/')
            == DataSegments(criticality, backupType, generation, initiative, source, now)
    ensures Split(ReportsPrefix(criticality, backupType, generation, initiative, source, now), '/')
            == ReportSegments(criticality, backupType, generation, initiative, source, now)
    ensures Split(FinalManifestKey(criticality, backupType, initiative, source, now), '/')
            == ManifestSegments(criticality, backupType, initiative, source, now) + ["manifest.csv"]
    ensures var data := DataSegments(criticality, backupType, generation, initiative, source, now);
            var manifest := ManifestSegments(criticality, backupType, initiative, source, now);
            var reports := ReportSegments(criticality, backupType, generation, initiative, source, now);
            |data| == 11 && |manifest| == 9 && |reports| == 10
            && data[6..10] == manifest[5..9] == reports[6..10] == HourSegments(now)
            && data[10] == "timestamp=" + RunStamp(now)
            && data[5] == manifest[4] == reports[5] == "bucket=" + source
  {
    DataPathSplits(criticality, backupType, generation, initiative, source, now);
    ReportsPathSplits(criticality, backupType, generation, initiative, source, now);
    ManifestPathSplits(criticality, backupType, initiative, source, now);
    SegmentsShareHour(criticality, backupType, generation, initiative, source, now);
  }

  /** The data prefix splits back into its segments. */
  lemma DataPathSplits(criticality: string, backupType: string, generation: string,
                       initiative: string, source: string, now: DateTime)
    requires '/' !in criticality && '/' !in backupType && '/' !in generation
    requires '/' !in initiative && '/' !in source
    ensures Split(DataPrefix(criticality, backupType, generation, initiative, source, now), '/')
            == DataSegments(criticality, backupType, generation, initiative, source, now)
  {
    HourSegmentsPlain(now);
    var d := DataSegments(criticality, backupType, generation, initiative, source, now);
    assert IsDigit(RunStamp(now)[0]);
    assert d[6..10] == HourSegments(now);
    SplitJoin(d, '/');
  }

  /** The reports prefix splits back into its segments. */
  lemma ReportsPathSplits(criticality: string, backupType: string, generation: string,
                          initiative: string, source: string, now: DateTime)
    requires '/' !in criticality && '/' !in backupType && '/' !in generation
    requires '/' !in initiative && '/' !in source
    ensures Split(ReportsPrefix(criticality, backupType, generation, initiative, source, now), '/')
            == ReportSegments(criticality, backupType, generation, initiative, source, now)
  {
    HourSegmentsPlain(now);
    var r := ReportSegments(criticality, backupType, generation, initiative, source, now);
    assert r[6..10] == HourSegments(now);
    SplitJoin(r, '/');
  }

  /** The final manifest key splits into the manifest segments and `manifest.csv`. */
  lemma ManifestPathSplits(criticality: string, backupType: string, initiative: string, source: string,
                           now: DateTime)
    requires '/' !in criticality && '/' !in backupType
    requires '/' !in initiative && '/' !in source
    ensures Split(FinalManifestKey(criticality, backupType, initiative, source, now), '/')
            == ManifestSegments(criticality, backupType, initiative, source, now) + ["manifest.csv"]
  {
    HourSegmentsPlain(now);
    var ms := ManifestSegments(criticality, backupType, initiative, source, now);
    var m := ms + ["manifest.csv"];
    assert m[5..9] == HourSegments(now);
    SplitJoin(m, '/');
    JoinAppend(ms, ["manifest.csv"], '/');
    assert Join(["manifest.csv"], '/') == "manifest.csv";
    assert Join(ms, '/') + ['/'] + "manifest.csv" == Join(ms, '/') + "/manifest.csv";
  }

  /** Where the hour, the run stamp and the bucket sit in each path. */
  lemma SegmentsShareHour(criticality: string, backupType: string, generation: string,
                          initiative: string, source: string, now: DateTime)
    ensures var data := DataSegments(criticality, backupType, generation, initiative, source, now);
            var manifest := ManifestSegments(criticality, backupType, initiative, source, now);
            var reports := ReportSegments(criticality, backupType, generation, initiative, source, now);
            |data| == 11 && |manifest| == 9 && |reports| == 10
            && data[6..10] == manifest[5..9] == reports[6..10] == HourSegments(now)
            && data[10] == "timestamp=" + RunStamp(now)
            && data[5] == manifest[4] == reports[5] == "bucket=" + source
  {
  }

  // ---------------------------------------------------------------------
  // the handler

  /** The part of `create_job` the model keeps. */
  datatype BatchJob = BatchJob(targetResource: string, targetKeyPrefix: string, reportBucket: string,
                               reportPrefix: string, manifestArn: string, manifestETag: string)

  function ObjectArn(bucket: string, key: string): string
  {
    "arn:aws:s3:::" + bucket + "/" + key
  }

  /** The job of a run whose manifest ended up at `bucket`/`key` with the given ETag. */
  function JobFor(env: Env, criticality: string, backupType: string, generation: string, source: string,
                  now: DateTime, bucket: string, key: string, etag: string): BatchJob
  {
    BatchJob(env.backupBucketArn, DataPrefix(criticality, backupType, generation, env.initiative, source, now),
             env.backupBucketArn, ReportsPrefix(criticality, backupType, generation, env.initiative, source, now),
             ObjectArn(bucket, key), StripQuotes(etag))
  }

  /** Where the manifest goes: its final key, in the manifests bucket when that one answers. */
  function FinalLoc(env: Env, event: LaunchEvent, temp: Loc, reachable: set<string>, now: DateTime): Loc
    requires event.sourceBucket.Some? && event.backupType.Some?
  {
    var criticality := if event.criticality.Some? then event.criticality.value else "MenosCritico";
    Loc(if env.manifestsBucket in reachable then env.manifestsBucket else temp.bucket,
        FinalManifestKey(criticality, event.backupType.value, env.initiative, event.sourceBucket.value, now))
  }

  /**
   * When `lambda_handler` returns a job id: every field is present, the
   * temporary manifest can be read and deleted, its final key differs from
   * it (otherwise the delete removes the copy and `head_object` fails), and
   * `create_job` accepts the job for the copy.
   */
  ghost predicate Launches(env: Env, event: LaunchEvent, objects: map<Loc, string>, reachable: set<string>,
                           locked: set<string>, etagOf: string -> string, now: DateTime,
                           createJob: BatchJob -> Result<string>)
  {
    event.manifest.Some? && event.sourceBucket.Some? && event.backupType.Some?
    && event.manifest.value.bucket.Some? && event.manifest.value.key.Some?
    && var temp := Loc(event.manifest.value.bucket.value, event.manifest.value.key.value);
       var bt := event.backupType.value;
       var generation := if event.generation.Some? then event.generation.value else DefaultGeneration(bt);
       var criticality := if event.criticality.Some? then event.criticality.value else "MenosCritico";
       var final := FinalLoc(env, event, temp, reachable, now);
       temp.bucket in reachable && temp in objects && temp.bucket !in locked && final != temp
       && createJob(JobFor(env, criticality, bt, generation, event.sourceBucket.value, now,
                           final.bucket, final.key, etagOf(objects[temp]))).Ok?
  }

  /**
   * The objects `lambda_handler` leaves, whatever it returns: nothing moves
   * until every field is read and the temp bucket answers, nor when the
   * temporary manifest is missing; otherwise the manifest is copied to its
   * final key, and the temporary key is gone unless its bucket refuses the
   * delete. A failed `head_object` or `create_job` afterwards undoes nothing.
   * So once the manifest is read its body stays at the final key, except
   * when the final key is the temporary one and the delete goes through:
   * then the manifest is lost. No other object changes.
   */
  function LaunchedObjects(env: Env, event: LaunchEvent, objects: map<Loc, string>, reachable: set<string>,
                           locked: set<string>, now: DateTime): (after: map<Loc, string>)
    ensures event.manifest.Some? && event.sourceBucket.Some? && event.backupType.Some?
            && event.manifest.value.bucket.Some? && event.manifest.value.key.Some? ==>
              var temp := Loc(event.manifest.value.bucket.value, event.manifest.value.key.value);
              var final := FinalLoc(env, event, temp, reachable, now);
              (temp.bucket in reachable && temp in objects ==>
                 (final in after && after[final] == objects[temp] <==> final != temp || temp.bucket in locked))
              && forall l :: l != final && l != temp ==> (l in after <==> l in objects)
                                                         && (l in after ==> after[l] == objects[l])
  {
    if event.manifest.None? || event.sourceBucket.None? || event.backupType.None?
       || event.manifest.value.bucket.None? || event.manifest.value.key.None? then objects
    else
      var temp := Loc(event.manifest.value.bucket.value, event.manifest.value.key.value);
      var final := FinalLoc(env, event, temp, reachable, now);
      if temp.bucket !in reachable || temp !in objects then objects
      else if temp.bucket in locked then objects[final := objects[temp]]
      else objects[final := objects[temp]] - {temp}
  }

  /**
   * `lambda_handler`: missing fields raise `KeyError`; an unusable temp
   * bucket raises; an unusable manifests bucket keeps the manifest in the
   * temp bucket. The manifest is copied to its final key and the temp key
   * deleted, and the job points at the copy. `create_job` is a parameter.
   */
  method Launch(env: Env, event: LaunchEvent, store: Store, now: DateTime,
                createJob: BatchJob -> Result<string>) returns (r: Result<string>)
    modifies store
    ensures event.manifest.None? || event.sourceBucket.None? || event.backupType.None?
            || event.manifest.value.bucket.None? || event.manifest.value.key.None?
            ==> r.Err? && r.error.KeyError? && store.objects == old(store.objects)
    ensures r.Ok? ==>
              event.manifest.Some? && event.sourceBucket.Some? && event.backupType.Some?
              && event.manifest.value.bucket.Some? && event.manifest.value.key.Some?
              && var temp := Loc(event.manifest.value.bucket.value, event.manifest.value.key.value);
                 var bt := event.backupType.value;
                 var generation := if event.generation.Some? then event.generation.value else DefaultGeneration(bt);
                 var criticality := if event.criticality.Some? then event.criticality.value else "MenosCritico";
                 var final := FinalLoc(env, event, temp, store.reachable, now);
                 temp.bucket in store.reachable && temp in old(store.objects)
                 && store.objects == old(store.objects)[final := old(store.objects)[temp]] - {temp}
                 && createJob(JobFor(env, criticality, bt, generation, event.sourceBucket.value, now,
                                     final.bucket, final.key, store.etagOf(old(store.objects)[temp])))
                    == Ok(r.value)
    ensures event.manifest.Some? && event.manifest.value.bucket.Some?
            && event.manifest.value.bucket.value !in store.reachable
            ==> r.Err? && store.objects == old(store.objects)
    ensures r.Ok? <==> Launches(env, event, old(store.objects), store.reachable, store.locked,
                                store.etagOf, now, createJob)
    ensures store.objects == LaunchedObjects(env, event, old(store.objects), store.reachable, store.locked, now)
  {
    if event.manifest.None? {
      return Err(KeyError("manifest"));
    }
    if event.sourceBucket.None? {
      return Err(KeyError("source_bucket"));
    }
    if event.backupType.None? {
      return Err(KeyError("backup_type"));
    }
    var source := event.sourceBucket.value;
    var bt := event.backupType.value;
    var generation := if event.generation.Some? then event.generation.value else DefaultGeneration(bt);
    var criticality := if event.criticality.Some? then event.criticality.value else "MenosCritico";
    if event.manifest.value.bucket.None? {
      return Err(KeyError("bucket"));
    }
    if event.manifest.value.key.None? {
      return Err(KeyError("key"));
    }
    var temp := Loc(event.manifest.value.bucket.value, event.manifest.value.key.value);
    if !store.HeadBucket(temp.bucket) {
      return Err(ClientError("NoSuchBucket"));
    }
    var final := FinalLoc(env, event, temp, store.reachable, now);
    var finalBucket := final.bucket;
    var copied := store.Copy(temp, final);
    if copied.Err? {
      return Err(copied.error);
    }
    var deleted := store.Delete(temp);
    if deleted.Err? {
      return Err(deleted.error);
    }
    var etag := store.HeadETag(final);
    if etag.Err? {
      return Err(etag.error);
    }
    var job := createJob(JobFor(env, criticality, bt, generation, source, now, finalBucket, final.key, etag.value));
    if job.Err? {
      return Err(job.error);
    }
    r := Ok(job.value);
  }
}
