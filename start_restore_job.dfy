/**
 * The job starter of the restore service: it checks the manifest location
 * and the target, derives the report prefix, the storage class and the
 * request token, and submits one S3 Batch Operations copy job.
 */
module StartRestoreJob {
  import opened Base
  import opened Strings
  import opened ObjectStore
  import LaunchBatchJob

  /** BATCH_ROLE_NAME and DEFAULT_REPORT_SUFFIX. */
  datatype Env = Env(batchRoleName: string, defaultReportSuffix: string)

  datatype ManifestField = ManifestField(bucket: Option<string>, key: Option<string>)

  /** The fields of the event; an absent one is `None`. */
  datatype StartEvent = StartEvent(manifest: Option<ManifestField>, targetBucket: Option<string>,
                                   targetPrefix: Option<string>, storageClass: Option<string>,
                                   reportSuffix: Option<string>, clientRequestToken: Option<string>,
                                   requestId: Option<string>)

  /** The part of the `create_job` request the model keeps. */
  datatype JobRequest = JobRequest(accountId: string, roleArn: string, targetResource: string,
                                   targetKeyPrefix: string, storageClass: Option<string>, manifestArn: string,
                                   manifestETag: string, reportBucket: string, reportPrefix: string,
                                   clientRequestToken: string)

  datatype StartOutput = StartOutput(jobId: string, status: string, targetBucket: string, targetPrefix: string,
                                     reportPrefix: string, manifest: Loc)

  function BucketArn(bucket: string): string
  {
    "arn:aws:s3:::" + bucket
  }

  function RoleArn(accountId: string, roleName: string): string
  {
    "arn:aws:iam::" + accountId + ":role/" + roleName
  }

  /** The report suffix with a trailing slash. */
  function ReportSuffix(env: Env, event: StartEvent): string
  {
    var suffix := OrElse(event.reportSuffix, env.defaultReportSuffix);
    if EndsWith(suffix, "/") then suffix else suffix + "/"
  }

  /** The trimmed storage class, when it is not blank. */
  function StorageClass(event: StartEvent): Option<string>
  {
    var trimmed := Strip(OrElse(event.storageClass, ""));
    if trimmed == "" then None else Some(trimmed)
  }

  function RequestToken(event: StartEvent, manifestKey: string): string
  {
    OrElse(event.clientRequestToken, OrElse(event.requestId, manifestKey))
  }

  /** The job for a manifest at `manifest` whose `head_object` answered `etag`. */
  function Request(env: Env, event: StartEvent, manifest: Loc, target: string, etag: string, accountId: string)
    : JobRequest
  {
    var targetPrefix := OrElse(event.targetPrefix, "");
    JobRequest(accountId, RoleArn(accountId, env.batchRoleName), BucketArn(target), targetPrefix,
               StorageClass(event), LaunchBatchJob.ObjectArn(manifest.bucket, manifest.key), StripQuotes(etag),
               BucketArn(target), targetPrefix + ReportSuffix(env, event), RequestToken(event, manifest.key))
  }

  /**
   * The report prefix lies under the target prefix and ends in a slash; the
   * storage class is set exactly when a non-blank one was given; the token
   * is the client's, else the request id, else the manifest key; the
   * copies and the report go to the target bucket.
   */
  lemma RequestFacts(env: Env, event: StartEvent, manifest: Loc, target: string, etag: string, accountId: string)
    ensures var req := Request(env, event, manifest, target, etag, accountId);
            StartsWith(req.reportPrefix, OrElse(event.targetPrefix, "")) && EndsWith(req.reportPrefix, "/")
            && (req.storageClass.Some? <==> Strip(OrElse(event.storageClass, "")) != "")
            && (req.storageClass.Some? ==> req.storageClass.value == Strip(OrElse(event.storageClass, "")))
            && (Truthy(event.clientRequestToken) ==> req.clientRequestToken == event.clientRequestToken.value)
            && (!Truthy(event.clientRequestToken) && Truthy(event.requestId)
                ==> req.clientRequestToken == event.requestId.value)
            && (!Truthy(event.clientRequestToken) && !Truthy(event.requestId)
                ==> req.clientRequestToken == manifest.key)
            && req.targetResource == req.reportBucket == "arn:aws:s3:::" + target
            && |req.manifestETag| <= |etag|
  {
    var prefix := OrElse(event.targetPrefix, "");
    var suffix := ReportSuffix(env, event);
    assert (prefix + suffix)[..|prefix|] == prefix;
    assert (prefix + suffix)[|prefix + suffix| - 1] == suffix[|suffix| - 1];
  }

  /**
   * `lambda_handler`: a missing manifest bucket or key, or a missing
   * target bucket, raise `ValueError`; `head_object` and `create_job`
   * errors propagate. The account id and both API calls are parameters.
   */
  function Start(env: Env, event: StartEvent, head: Loc -> Result<string>, accountId: string,
                 createJob: JobRequest -> Result<string>): (r: Result<StartOutput>)
    ensures (event.manifest.None? || !Truthy(event.manifest.value.bucket) || !Truthy(event.manifest.value.key))
            ==> r == Err(ValueError("Se requiere la ubicación del manifest (bucket y key)"))
    ensures (event.manifest.Some? && Truthy(event.manifest.value.bucket) && Truthy(event.manifest.value.key)
             && !Truthy(event.targetBucket))
            ==> r == Err(ValueError("targetBucket es obligatorio"))
    ensures r.Ok? ==>
              event.manifest.Some? && Truthy(event.manifest.value.bucket) && Truthy(event.manifest.value.key)
              && Truthy(event.targetBucket)
              && var manifest := Loc(event.manifest.value.bucket.value, event.manifest.value.key.value);
                 head(manifest).Ok?
                 && var req := Request(env, event, manifest, event.targetBucket.value, head(manifest).value,
                                       accountId);
                    createJob(req) == Ok(r.value.jobId)
                    && r.value == StartOutput(r.value.jobId, "RUNNING", event.targetBucket.value,
                                              OrElse(event.targetPrefix, ""), req.reportPrefix, manifest)
  {
    if event.manifest.None? || !Truthy(event.manifest.value.bucket) || !Truthy(event.manifest.value.key) then
      Err(ValueError("Se requiere la ubicación del manifest (bucket y key)"))
    else if !Truthy(event.targetBucket) then
      Err(ValueError("targetBucket es obligatorio"))
    else
      var manifest := Loc(event.manifest.value.bucket.value, event.manifest.value.key.value);
      var target := event.targetBucket.value;
      match head(manifest)
        case Err(e) => Err(e)
        case Ok(etag) =>
          var req := Request(env, event, manifest, target, etag, accountId);
          match createJob(req)
            case Err(e) => Err(e)
            case Ok(jobId) =>
              Ok(StartOutput(jobId, "RUNNING", target, OrElse(event.targetPrefix, ""), req.reportPrefix, manifest))
  }
}
