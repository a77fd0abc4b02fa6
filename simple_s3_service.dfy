/**
 * The restore service of the simple backup app: it finds an account by id,
 * restores one backup object either by copying it to a restore bucket or by
 * handing out a presigned download URL, and keeps an audit log of the
 * restores that succeeded.
 *
 * The AWS side is given as parameters: whether assuming the account's role
 * fails (and with which error code), whether the copy or the URL request
 * fails, and the URL S3 would sign.
 */
module SimpleS3Service {
  import opened Base
  import opened Strings
  import opened SimpleConfig

  /** A restore request; `strategy` is the raw string the request carries. */
  datatype RestoreRequest = RestoreRequest(
    accountId: string, objectKey: string, strategy: string,
    destinationBucket: Option<string>, destinationPrefix: string)

  /** A restore result, without its creation timestamp. */
  datatype RestoreResult = RestoreResult(
    success: bool, message: string, objectKey: string, destination: string, strategy: string)

  /** What AWS does when asked: role assumption, the copy or presign call, and the signed URL. */
  datatype Aws = Aws(sessionError: Option<string>, callError: Option<string>, url: string)

  /** A listed backup object. */
  datatype BackupObject = BackupObject(key: string, size: nat)

  // ---------------------------------------------------------------------
  // the copy destination

  /** `object_key.split("/")[-1]`. */
  function KeyName(objectKey: string): (r: string)
    ensures '/' !in r
    ensures EndsWith(objectKey, r)
  {
    var parts := Split(objectKey, '/');
    SplitPiecesFree(objectKey, '/');
    JoinSplit(objectKey, '/');
    LastPieceEnds(parts);
    parts[|parts| - 1]
  }

  /** The last piece of a join is a suffix of it. */
  lemma {:induction false} LastPieceEnds(parts: seq<string>)
    requires |parts| >= 1
    ensures EndsWith(Join(parts, '/'), parts[|parts| - 1])
  {
    if |parts| > 1 {
      JoinAppend(parts[..|parts| - 1], [parts[|parts| - 1]], '/');
      assert parts[..|parts| - 1] + [parts[|parts| - 1]] == parts;
      var j := Join(parts[..|parts| - 1], '/') + "/" + parts[|parts| - 1];
      assert j[|j| - |parts[|parts| - 1]|..] == parts[|parts| - 1];
    }
  }

  /** `f"{prefix}{key_name}" if prefix else key_name`. */
  function DestinationKey(prefix: string, objectKey: string): (r: string)
  {
    if prefix != "" then prefix + KeyName(objectKey) else KeyName(objectKey)
  }

  /**
   * The restored object keeps the last segment of its key, placed right
   * after the destination prefix: a prefix ending in "/" is its folder.
   */
  lemma DestinationUnderPrefix(prefix: string, objectKey: string)
    ensures DestinationKey(prefix, objectKey) == prefix + KeyName(objectKey)
    ensures StartsWith(DestinationKey(prefix, objectKey), prefix)
    ensures EndsWith(DestinationKey(prefix, objectKey), KeyName(objectKey))
    ensures EndsWith(prefix, "/") ==> KeyName(DestinationKey(prefix, objectKey)) == KeyName(objectKey)
  {
    var d := DestinationKey(prefix, objectKey);
    var k := KeyName(objectKey);
    assert d[..|prefix|] == prefix;
    assert d[|d| - |k|..] == k;
    if EndsWith(prefix, "/") {
      KeyNameAfterSlash(prefix, k);
    }
  }

  /** Behind a "/" the last segment is whatever follows it, when that holds no "/". */
  lemma KeyNameAfterSlash(prefix: string, k: string)
    requires EndsWith(prefix, "/") && '/' !in k
    ensures KeyName(prefix + k) == k
  {
    var head := prefix[..|prefix| - 1];
    assert prefix + k == head + ['/'] + k by {
      assert prefix == head + [prefix[|prefix| - 1]];
      assert prefix[|prefix| - 1..] == "/";
    }
    SplitAround(head, k, '/');
    SplitNoSep(k, '/');
  }

  /** The destination bucket and key of a copy, or why there is none. */
  function CopyTarget(account: AccountConfig, request: RestoreRequest): (r: Result<(string, string)>)
    ensures r.Err? <==> !Truthy(request.destinationBucket) && !Truthy(account.restoreBucket)
    ensures r.Err? ==> r.error.ValueError?
    ensures r.Ok? ==> r.value.0 != ""
                      && (Truthy(request.destinationBucket) ==> r.value.0 == request.destinationBucket.value)
                      && (!Truthy(request.destinationBucket) ==> r.value.0 == account.restoreBucket.value)
    ensures r.Ok? ==> r.value.1 == (if request.destinationPrefix != "" then request.destinationPrefix
                                    else account.restorePrefix) + KeyName(request.objectKey)
  {
    var bucket := if Truthy(request.destinationBucket) then request.destinationBucket else account.restoreBucket;
    if !Truthy(bucket) then Err(ValueError("No se ha definido bucket de restauración para la estrategia copy"))
    else
      var prefix := if request.destinationPrefix != "" then request.destinationPrefix else account.restorePrefix;
      DestinationUnderPrefix(prefix, request.objectKey);
      Ok((bucket.value, DestinationKey(prefix, request.objectKey)))
  }

  // ---------------------------------------------------------------------
  // the service

  /** The first account with the id, as the linear search finds it. */
  predicate FirstWithId(accounts: seq<AccountConfig>, id: string, i: int)
  {
    0 <= i < |accounts| && accounts[i].id == id && forall j :: 0 <= j < i ==> accounts[j].id != id
  }

  /** `combined_prefix`: the account's backup prefix, followed by the asked prefix when there is one. */
  function ListingPrefix(account: AccountConfig, prefix: string): (r: string)
    ensures StartsWith(r, account.backupPrefix)
    ensures r == account.backupPrefix + prefix
  {
    if prefix != "" then account.backupPrefix + prefix else account.backupPrefix
  }

  /** What a restore of this request against this account yields. */
  function Outcome(account: AccountConfig, request: RestoreRequest, aws: Aws): Result<RestoreResult>
  {
    if request.strategy == "copy" then
      var target := CopyTarget(account, request);
      if target.Err? then Err(target.error)
      else if aws.sessionError.Some? then Err(ClientError(aws.sessionError.value))
      else if aws.callError.Some? then Err(RuntimeError("Error al copiar objeto: " + aws.callError.value))
      else Ok(RestoreResult(true, "Objeto copiado correctamente", request.objectKey,
                            "s3://" + target.value.0 + "/" + target.value.1, "copy"))
    else if request.strategy == "download" then
      if aws.sessionError.Some? then Err(ClientError(aws.sessionError.value))
      else if aws.callError.Some? then Err(RuntimeError("No se pudo generar URL presignada: " + aws.callError.value))
      else Ok(RestoreResult(true, "URL generada por 60 minutos", request.objectKey, aws.url, "download"))
    else Err(ValueError("Estrategia de restauración no soportada: " + request.strategy))
  }

  /**
   * A restore succeeds only for "copy" or "download", reports success and
   * its own strategy and object; a copy needs a destination bucket, checked
   * before any AWS call, and lands at that bucket and key.
   */
  lemma OutcomeMeaning(account: AccountConfig, request: RestoreRequest, aws: Aws)
    ensures Outcome(account, request, aws).Ok? ==>
              var res := Outcome(account, request, aws).value;
              res.success && res.strategy == request.strategy && res.objectKey == request.objectKey
              && request.strategy in {"copy", "download"}
    ensures request.strategy !in {"copy", "download"} ==>
              Outcome(account, request, aws).Err? && Outcome(account, request, aws).error.ValueError?
    ensures request.strategy == "copy" && CopyTarget(account, request).Err? ==>
              Outcome(account, request, aws) == Err(CopyTarget(account, request).error)
    ensures request.strategy == "copy" && Outcome(account, request, aws).Ok? ==>
              var t := CopyTarget(account, request).value;
              Outcome(account, request, aws).value.destination == "s3://" + t.0 + "/" + t.1
    ensures (request.strategy in {"copy", "download"} && CopyTarget(account, request).Ok?
             && aws.sessionError.None? && aws.callError.None?) ==> Outcome(account, request, aws).Ok?
  {
  }

  /** `S3RestoreService`: the configuration and the audit log of restores that succeeded. */
  class RestoreService {
    const config: AppConfig
    var auditLog: seq<RestoreResult>

    /** Only successful restores are logged. */
    predicate Valid()
      reads this
    {
      forall i :: 0 <= i < |auditLog| ==> auditLog[i].success
    }

    constructor (config: AppConfig)
      ensures this.config == config && auditLog == [] && Valid()
    {
      this.config := config;
      auditLog := [];
    }

    /** `get_account`: the first account with the id, else `KeyError`. */
    method GetAccount(accountId: string) returns (r: Result<AccountConfig>)
      ensures r.Err? <==> forall j :: 0 <= j < |config.accounts| ==> config.accounts[j].id != accountId
      ensures r.Err? ==> r.error == KeyError("Cuenta no encontrada: " + accountId)
      ensures r.Ok? ==> exists i :: FirstWithId(config.accounts, accountId, i) && r.value == config.accounts[i]
    {
      var accounts := config.accounts;
      var i := 0;
      while i < |accounts|
        invariant 0 <= i <= |accounts|
        invariant forall j :: 0 <= j < i ==> accounts[j].id != accountId
      {
        if accounts[i].id == accountId {
          assert FirstWithId(accounts, accountId, i);
          return Ok(accounts[i]);
        }
        i := i + 1;
      }
      r := Err(KeyError("Cuenta no encontrada: " + accountId));
    }

    /** `list_accounts`. */
    method ListAccounts() returns (r: seq<AccountConfig>)
      ensures r == config.accounts
    {
      r := config.accounts;
    }

    /**
     * `list_backup_objects`: the listing of the account's backup bucket
     * under the combined prefix; an unknown account raises `KeyError` and
     * a refused role assumption its client error.
     */
    method ListBackupObjects(accountId: string, prefix: string, sessionError: Option<string>,
                             list: (string, string) -> seq<BackupObject>)
      returns (r: Result<seq<BackupObject>>)
      ensures r.Err? <==> sessionError.Some? || forall j :: 0 <= j < |config.accounts| ==> config.accounts[j].id != accountId
      ensures r.Ok? ==> exists i :: FirstWithId(config.accounts, accountId, i)
                                    && r.value == list(config.accounts[i].backupBucket, ListingPrefix(config.accounts[i], prefix))
    {
      var account := GetAccount(accountId);
      if account.Err? {
        return Err(account.error);
      }
      if sessionError.Some? {
        return Err(ClientError(sessionError.value));
      }
      r := Ok(list(account.value.backupBucket, ListingPrefix(account.value, prefix)));
    }

    /**
     * `restore`: look the account up, then copy or presign. A success
     * appends exactly its result to the audit log; any failure leaves the
     * log as it was.
     */
    method Restore(request: RestoreRequest, aws: Aws) returns (r: Result<RestoreResult>)
      requires Valid()
      modifies this
      ensures Valid()
      ensures r.Err? && r.error.KeyError? <==> forall j :: 0 <= j < |config.accounts| ==> config.accounts[j].id != request.accountId
      ensures (exists i :: FirstWithId(config.accounts, request.accountId, i)) ==>
                exists i :: FirstWithId(config.accounts, request.accountId, i) && r == Outcome(config.accounts[i], request, aws)
      ensures r.Ok? ==> auditLog == old(auditLog) + [r.value]
      ensures r.Err? ==> auditLog == old(auditLog)
    {
      var account := GetAccount(request.accountId);
      if account.Err? {
        return Err(account.error);
      }
      if request.strategy == "copy" {
        r := CopyObject(account.value, request, aws);
      } else if request.strategy == "download" {
        r := PresignedUrl(account.value, request, aws);
      } else {
        r := Err(ValueError("Estrategia de restauración no soportada: " + request.strategy));
      }
    }

    /** `_copy_object`. */
    method CopyObject(account: AccountConfig, request: RestoreRequest, aws: Aws) returns (r: Result<RestoreResult>)
      requires request.strategy == "copy"
      requires Valid()
      modifies this
      ensures Valid()
      ensures r == Outcome(account, request, aws)
      ensures r.Err? ==> r.error.ValueError? || r.error.ClientError? || r.error.RuntimeError?
      ensures r.Ok? ==> auditLog == old(auditLog) + [r.value]
      ensures r.Err? ==> auditLog == old(auditLog)
    {
      var target := CopyTarget(account, request);
      if target.Err? {
        return Err(target.error);
      }
      if aws.sessionError.Some? {
        return Err(ClientError(aws.sessionError.value));
      }
      if aws.callError.Some? {
        return Err(RuntimeError("Error al copiar objeto: " + aws.callError.value));
      }
      var result := RestoreResult(true, "Objeto copiado correctamente", request.objectKey,
                                  "s3://" + target.value.0 + "/" + target.value.1, "copy");
      auditLog := auditLog + [result];
      r := Ok(result);
    }

    /** `_generate_presigned_url`. */
    method PresignedUrl(account: AccountConfig, request: RestoreRequest, aws: Aws) returns (r: Result<RestoreResult>)
      requires request.strategy == "download"
      requires Valid()
      modifies this
      ensures Valid()
      ensures r == Outcome(account, request, aws)
      ensures r.Err? ==> r.error.ClientError? || r.error.RuntimeError?
      ensures r.Ok? ==> auditLog == old(auditLog) + [r.value]
      ensures r.Err? ==> auditLog == old(auditLog)
    {
      if aws.sessionError.Some? {
        return Err(ClientError(aws.sessionError.value));
      }
      if aws.callError.Some? {
        return Err(RuntimeError("No se pudo generar URL presignada: " + aws.callError.value));
      }
      var result := RestoreResult(true, "URL generada por 60 minutos", request.objectKey, aws.url, "download");
      auditLog := auditLog + [result];
      r := Ok(result);
    }

    /** `get_audit_log`: a copy of the log, which later restores do not change. */
    method GetAuditLog() returns (r: seq<RestoreResult>)
      requires Valid()
      ensures r == auditLog
      ensures forall i :: 0 <= i < |r| ==> r[i].success
    {
      r := auditLog;
    }
  }
}
