/**
 * The configuration restore script: for each requested service it finds a
 * snapshot under the service's folder in the central bucket (the newest
 * JSON object, or the first key holding a given timestamp), loads it and
 * replays it through the service's API. Without `--yes` it is a dry run and
 * no mutating call is made.
 */
module RestoreConfigurations {
  import opened Base
  import opened Strings
  import opened Stamps
  import opened Listings
  import BackupConfigurations
  import LaunchBatchJob

  /** SERVICES: the service names the command line accepts. */
  const CliServices: seq<string> := ["s3", "eventbridge", "stepfunctions", "glue", "athena", "lambda", "iam",
                                     "dynamodb", "rds"]

  /** The order `--all` restores in: roles first, so later resources can use them. */
  const DependencyOrder: seq<string> := ["iam", "s3", "eventbridge", "stepfunctions", "glue", "athena", "lambda",
                                         "dynamodb", "rds"]

  /** The services restored when none is named. */
  const DefaultServices: seq<string> := ["s3", "eventbridge", "stepfunctions"]

  /** `--all` names every supported service once, and nothing else. */
  lemma DependencyOrderSupported()
    ensures forall s :: s in DependencyOrder <==> s in CliServices
    ensures |DependencyOrder| == |CliServices|
    ensures forall s :: s in DefaultServices ==> s in CliServices
  {
  }

  // ---------------------------------------------------------------------
  // where the snapshots of a service are looked for

  /** The path segments above the snapshots of one service folder. */
  function PrefixSegments(initiative: string, criticality: string, folder: string): seq<string>
  {
    ["backup", "criticality=" + criticality, "backup_type=configurations", "initiative=" + initiative,
     "service=" + folder]
  }

  /** SERVICE_ALIAS as written: only `s3` and `lambda` are renamed. */
  function StoredFolder(service: string): string
  {
    if service == "s3" then "s3_buckets"
    else if service == "lambda" then "lambda_functions"
    else service
  }

  /** `build_prefix` as written. */
  function BuildPrefix(initiative: string, criticality: string, service: string): string
  {
    Join(PrefixSegments(initiative, criticality, StoredFolder(service)), '/') + "/"
  }

  /** Each command-line service with the folder the snapshot lambda writes it under. */
  const WriterFolders: seq<(string, string)> :=
    [("s3", "s3_buckets"), ("eventbridge", "eventbridge_rules"), ("stepfunctions", "step_functions"),
     ("glue", "glue"), ("athena", "athena"), ("lambda", "lambda_functions"), ("iam", "iam_roles"),
     ("dynamodb", "dynamodb_tables"), ("rds", "rds")]

  /** The folder paired with `service` in `table`, first pair first; the name itself when none is. */
  function FolderIn(table: seq<(string, string)>, service: string): string
    decreases |table|
  {
    if table == [] then service
    else if table[0].0 == service then table[0].1
    else FolderIn(table[1..], service)
  }

  /** The folder the snapshot lambda writes each command-line service under. */
  function WriterFolder(service: string): string
  {
    FolderIn(WriterFolders, service)
  }

  /** A service named in the table finds its own pair when no earlier pair names it. */
  lemma {:induction false} FolderInAt(table: seq<(string, string)>, i: nat)
    requires i < |table| && forall j :: 0 <= j < i ==> table[j].0 != table[i].0
    ensures FolderIn(table, table[i].0) == table[i].1
  {
    if i > 0 {
      assert table[0].0 != table[i].0;
      assert table[1..][i - 1] == table[i];
      FolderInAt(table[1..], i - 1);
    }
  }

  /** Folders without `/` give a folder without `/`. */
  lemma {:induction false} FolderInNoSep(table: seq<(string, string)>, service: string)
    requires '/' !in service && forall j :: 0 <= j < |table| ==> '/' !in table[j].1
    ensures '/' !in FolderIn(table, service)
  {
    if table != [] && table[0].0 != service {
      FolderInNoSep(table[1..], service);
    }
  }

  /** The services the snapshot lambda writes under a folder of another name. */
  lemma WriterFoldersRenamed()
    ensures WriterFolder("s3") == "s3_buckets" && WriterFolder("eventbridge") == "eventbridge_rules"
            && WriterFolder("stepfunctions") == "step_functions" && WriterFolder("lambda") == "lambda_functions"
            && WriterFolder("iam") == "iam_roles" && WriterFolder("dynamodb") == "dynamodb_tables"
  {
    FolderInAt(WriterFolders, 0);
    FolderInAt(WriterFolders, 1);
    FolderInAt(WriterFolders, 2);
    FolderInAt(WriterFolders, 5);
    FolderInAt(WriterFolders, 6);
    FolderInAt(WriterFolders, 7);
  }

  /** No folder of the table holds a `/`. */
  lemma WriterFoldersNoSep()
    ensures forall j :: 0 <= j < |WriterFolders| ==> '/' !in WriterFolders[j].1
  {
    forall j | 0 <= j < |WriterFolders|
      ensures '/' !in WriterFolders[j].1
    {
      if j == 0 { assert WriterFolders[j].1 == "s3_buckets"; }
      else if j == 1 { assert WriterFolders[j].1 == "eventbridge_rules"; }
      else if j == 2 { assert WriterFolders[j].1 == "step_functions"; }
      else if j == 3 { assert WriterFolders[j].1 == "glue"; }
      else if j == 4 { assert WriterFolders[j].1 == "athena"; }
      else if j == 5 { assert WriterFolders[j].1 == "lambda_functions"; }
      else if j == 6 { assert WriterFolders[j].1 == "iam_roles"; }
      else if j == 7 { assert WriterFolders[j].1 == "dynamodb_tables"; }
      else { assert WriterFolders[j].1 == "rds"; }
    }
  }

  /** The prefix built from the writer's folder names. */
  function BuildPrefixFixed(initiative: string, criticality: string, service: string): string
  {
    Join(PrefixSegments(initiative, criticality, WriterFolder(service)), '/') + "/"
  }

  /** A key under the prefix of `folder` has that criticality and that folder in its segments. */
  lemma UnderPrefixSegments(key: string, initiative: string, criticality: string, folder: string)
    requires '/' !in initiative && '/' !in criticality && '/' !in folder
    requires StartsWith(key, Join(PrefixSegments(initiative, criticality, folder), '/') + "/")
    ensures |Split(key, '/')| > 5
    ensures Split(key, '/')[1] == "criticality=" + criticality && Split(key, '/')[4] == "service=" + folder
  {
    var segs := PrefixSegments(initiative, criticality, folder);
    assert NoSep(segs, '/');
    SplitUnderPrefix(key, segs, '/');
    assert Split(key, '/')[..5][1] == segs[1] && Split(key, '/')[..5][4] == segs[4];
  }

  /** A snapshot key under the prefix of `folder` was written under that folder, at `Critico`. */
  lemma PrefixPinsFolder(initiative: string, criticality: string, folder: string, written: string, t: DateTime)
    requires '/' !in initiative && '/' !in criticality && '/' !in folder && '/' !in written
    requires StartsWith(BackupConfigurations.SnapshotKey(initiative, written, t),
                        Join(PrefixSegments(initiative, criticality, folder), '/') + "/")
    ensures criticality == "Critico" && folder == written
  {
    var key := BackupConfigurations.SnapshotKey(initiative, written, t);
    BackupConfigurations.SnapshotKeyParts(initiative, written, t);
    UnderPrefixSegments(key, initiative, criticality, folder);
    assert criticality == ("criticality=" + criticality)[12..] == "criticality=Critico"[12..];
    assert folder == ("service=" + folder)[8..] == ("service=" + written)[8..];
  }

  /**
   * As written, the prefix of `iam`, `stepfunctions`, `eventbridge` and
   * `dynamodb` is a folder the snapshot lambda never writes: no snapshot of
   * those services is ever found, at any criticality and any hour.
   */
  lemma AliasMissesWriterFolders(initiative: string, criticality: string, service: string, t: DateTime)
    requires service == "iam" || service == "stepfunctions" || service == "eventbridge" || service == "dynamodb"
    requires '/' !in initiative && '/' !in criticality
    ensures !StartsWith(BackupConfigurations.SnapshotKey(initiative, WriterFolder(service), t),
                        BuildPrefix(initiative, criticality, service))
  {
    AliasKeepsName(service);
    FoldersNoSep(service);
    if StartsWith(BackupConfigurations.SnapshotKey(initiative, WriterFolder(service), t),
                  BuildPrefix(initiative, criticality, service)) {
      PrefixPinsFolder(initiative, criticality, StoredFolder(service), WriterFolder(service), t);
      assert false;
    }
  }

  /** The alias keeps these four names, which the writer renames. */
  lemma AliasKeepsName(service: string)
    requires service == "iam" || service == "stepfunctions" || service == "eventbridge" || service == "dynamodb"
    ensures '/' !in service && StoredFolder(service) == service && WriterFolder(service) != service
  {
    if service == "iam" {
      assert '/' !in "iam" && WriterFolder("iam") == "iam_roles";
    } else if service == "stepfunctions" {
      assert '/' !in "stepfunctions" && WriterFolder("stepfunctions") == "step_functions";
    } else if service == "eventbridge" {
      assert '/' !in "eventbridge" && WriterFolder("eventbridge") == "eventbridge_rules";
    } else {
      assert '/' !in "dynamodb";
      FolderInAt(WriterFolders, 7);
    }
  }

  /** Only the `Critico` prefix can hold a snapshot: the lambda writes under no other criticality. */
  lemma OnlyCriticoHoldsSnapshots(initiative: string, criticality: string, service: string, folder: string,
                                  t: DateTime)
    requires criticality != "Critico"
    requires '/' !in initiative && '/' !in criticality && '/' !in service && '/' !in folder
    ensures !StartsWith(BackupConfigurations.SnapshotKey(initiative, folder, t),
                        BuildPrefix(initiative, criticality, service))
    ensures !StartsWith(BackupConfigurations.SnapshotKey(initiative, folder, t),
                        BuildPrefixFixed(initiative, criticality, service))
  {
    FoldersNoSep(service);
    NotUnderOtherCriticality(initiative, criticality, StoredFolder(service), folder, t);
    NotUnderOtherCriticality(initiative, criticality, WriterFolder(service), folder, t);
  }

  /** Neither folder name of a service holds a `/` the service name does not. */
  lemma FoldersNoSep(service: string)
    requires '/' !in service
    ensures '/' !in StoredFolder(service) && '/' !in WriterFolder(service)
  {
    WriterFoldersNoSep();
    FolderInNoSep(WriterFolders, service);
  }

  /** No snapshot key lies under a prefix of a criticality other than `Critico`. */
  lemma NotUnderOtherCriticality(initiative: string, criticality: string, folder: string, written: string,
                                 t: DateTime)
    requires criticality != "Critico"
    requires '/' !in initiative && '/' !in criticality && '/' !in folder && '/' !in written
    ensures !StartsWith(BackupConfigurations.SnapshotKey(initiative, written, t),
                        Join(PrefixSegments(initiative, criticality, folder), '/') + "/")
  {
    if StartsWith(BackupConfigurations.SnapshotKey(initiative, written, t),
                  Join(PrefixSegments(initiative, criticality, folder), '/') + "/") {
      PrefixPinsFolder(initiative, criticality, folder, written, t);
      assert false;
    }
  }

  /** A snapshot key lies under the `Critico` prefix of the folder it was written under. */
  lemma CriticoPrefixHoldsKey(initiative: string, folder: string, t: DateTime)
    ensures StartsWith(BackupConfigurations.SnapshotKey(initiative, folder, t),
                       Join(PrefixSegments(initiative, "Critico", folder), '/') + "/")
  {
    var head := PrefixSegments(initiative, "Critico", folder);
    var segs := BackupConfigurations.SnapshotSegments(initiative, folder, t);
    var tail := LaunchBatchJob.HourSegments(t) + [folder + "_" + SnapshotStamp(t) + ".json"];
    assert "criticality=" + "Critico" == "criticality=Critico";
    assert head == ["backup", "criticality=Critico", "backup_type=configurations", "initiative=" + initiative,
                    "service=" + folder];
    assert segs == head + LaunchBatchJob.HourSegments(t) + [folder + "_" + SnapshotStamp(t) + ".json"];
    assert segs == head + tail;
    assert segs[5..] == tail;
    JoinAppend(head, segs[5..], '/');
    var key := Join(segs, '/');
    var p := Join(head, '/') + "/";
    assert key == p + Join(segs[5..], '/');
    assert key[..|p|] == p;
  }

  /**
   * With the writer's folder names every service's snapshots lie under its
   * `Critico` prefix; for `s3` and `lambda` this prefix is the one the
   * script already builds.
   */
  lemma FixedPrefixFindsSnapshots(initiative: string, service: string, t: DateTime)
    ensures StartsWith(BackupConfigurations.SnapshotKey(initiative, WriterFolder(service), t),
                       BuildPrefixFixed(initiative, "Critico", service))
    ensures service in ["s3", "lambda"] ==>
              BuildPrefixFixed(initiative, "Critico", service) == BuildPrefix(initiative, "Critico", service)
  {
    CriticoPrefixHoldsKey(initiative, WriterFolder(service), t);
    if service == "s3" {
      FolderInAt(WriterFolders, 0);
    } else if service == "lambda" {
      FolderInAt(WriterFolders, 5);
    }
  }

  // ---------------------------------------------------------------------
  // choosing the snapshot

  /** A snapshot candidate of `find_latest_key`: a key ending in `.json`, in any case. */
  predicate IsJson(key: string)
  {
    EndsWith(Lower(key), ".json")
  }

  /** `find_latest_key` given the listing under the prefix: the first newest JSON key. */
  method FindLatestKey(objs: seq<ListedObject>) returns (r: Option<string>)
    ensures r.None? <==> forall j :: 0 <= j < |objs| ==> !IsJson(objs[j].key)
    ensures r.Some? ==> exists i :: NewestAt(objs, IsJson, i) && objs[i].key == r.value
  {
    var found := Newest(objs, IsJson);
    if found.None? {
      return None;
    }
    r := Some(objs[found.value].key);
  }

  /** `objs[i]` is the first listed object whose key holds `ts`. */
  predicate FirstContainingAt(objs: seq<ListedObject>, ts: string, i: int)
  {
    0 <= i < |objs| && Contains(objs[i].key, ts)
    && forall j :: 0 <= j < i ==> !Contains(objs[j].key, ts)
  }

  /** The timestamp mode of `main`: the scan that stops at the first key holding the timestamp. */
  method FindByTimestamp(objs: seq<ListedObject>, ts: string) returns (r: Option<string>)
    ensures r.None? <==> forall j :: 0 <= j < |objs| ==> !Contains(objs[j].key, ts)
    ensures r.Some? ==> exists i :: FirstContainingAt(objs, ts, i) && objs[i].key == r.value
  {
    var i := 0;
    while i < |objs|
      invariant 0 <= i <= |objs|
      invariant forall j :: 0 <= j < i ==> !Contains(objs[j].key, ts)
    {
      if Contains(objs[i].key, ts) {
        assert FirstContainingAt(objs, ts, i);
        return Some(objs[i].key);
      }
      i := i + 1;
    }
    r := None;
  }

  /** `--latest` or `--timestamp` (the two are mutually exclusive). */
  datatype Mode = Latest | AtTimestamp(ts: string)

  /** What may be chosen from a listing in a mode. */
  ghost predicate Chose(mode: Mode, objs: seq<ListedObject>, p: Option<string>)
  {
    match mode
      case Latest =>
        (p.None? <==> forall j :: 0 <= j < |objs| ==> !IsJson(objs[j].key))
        && (p.Some? ==> exists i :: NewestAt(objs, IsJson, i) && objs[i].key == p.value)
      case AtTimestamp(ts) =>
        (p.None? <==> forall j :: 0 <= j < |objs| ==> !Contains(objs[j].key, ts))
        && (p.Some? ==> exists i :: FirstContainingAt(objs, ts, i) && objs[i].key == p.value)
  }

  method PickSnapshot(mode: Mode, objs: seq<ListedObject>) returns (p: Option<string>)
    ensures Chose(mode, objs, p)
  {
    match mode {
      case Latest =>
        p := FindLatestKey(objs);
      case AtTimestamp(ts) =>
        p := FindByTimestamp(objs, ts);
    }
  }

  // ---------------------------------------------------------------------
  // resolving the services

  /** The services a run restores, before they are checked. */
  function Requested(all: bool, servicesCsv: Option<string>, serviceArgs: seq<string>): seq<string>
  {
    if all then DependencyOrder
    else
      var named := (if Truthy(servicesCsv) then CsvItems(Split(servicesCsv.value, ',')) else []) + serviceArgs;
      if named == [] then DefaultServices else named
  }

  /**
   * A run restores something; `--all` wins over any list; otherwise the
   * listed services come first, the `--service` ones after them, and the
   * default applies only when nothing was named.
   */
  lemma RequestedFacts(all: bool, servicesCsv: Option<string>, serviceArgs: seq<string>)
    ensures var r := Requested(all, servicesCsv, serviceArgs);
            |r| > 0
            && (all ==> r == DependencyOrder)
            && (!all && serviceArgs != [] ==> r[|r| - |serviceArgs|..] == serviceArgs)
            && (!all && Truthy(servicesCsv) ==> r[..|CsvItems(Split(servicesCsv.value, ','))|]
                                                 == CsvItems(Split(servicesCsv.value, ',')))
            && (!all && !Truthy(servicesCsv) && serviceArgs == [] ==> r == DefaultServices)
  {
    if !all && Truthy(servicesCsv) {
      var items := CsvItems(Split(servicesCsv.value, ','));
      assert (items + serviceArgs)[..|items|] == items;
    }
  }

  /** The service list `main` builds in place. */
  method ResolveServices(all: bool, servicesCsv: Option<string>, serviceArgs: seq<string>)
    returns (services: seq<string>)
    ensures services == Requested(all, servicesCsv, serviceArgs)
  {
    if all {
      return DependencyOrder;
    }
    services := [];
    if Truthy(servicesCsv) {
      services := CsvServices(Split(servicesCsv.value, ','));
    }
    services := services + serviceArgs;
    if services == [] {
      services := DefaultServices;
    }
  }

  /** The loop of `main` over the comma-separated `--services`: each piece stripped, empty ones dropped. */
  method CsvServices(pieces: seq<string>) returns (items: seq<string>)
    ensures items == CsvItems(pieces)
  {
    items := [];
    var i := 0;
    while i < |pieces|
      invariant 0 <= i <= |pieces|
      invariant items == CsvItems(pieces[..i])
    {
      var item := Strip(pieces[i]);
      CsvItemsStep(pieces, i);
      if item != "" {
        items := items + [item];
      }
      i := i + 1;
    }
    assert pieces[..i] == pieces;
  }

  /** The check before any work: the first unsupported service, if any. */
  method FirstUnsupported(services: seq<string>) returns (r: Option<nat>)
    ensures r.None? <==> forall s :: s in services ==> s in CliServices
    ensures r.Some? ==> r.value < |services| && services[r.value] !in CliServices
                        && forall j :: 0 <= j < r.value ==> services[j] in CliServices
  {
    var i := 0;
    while i < |services|
      invariant 0 <= i <= |services|
      invariant forall j :: 0 <= j < i ==> services[j] in CliServices
    {
      if services[i] !in CliServices {
        return Some(i);
      }
      i := i + 1;
    }
    r := None;
  }

  // ---------------------------------------------------------------------
  // the snapshots and the calls that replay them

  /** `entry.get("Id") or entry.get("id")`, and the entry itself. */
  datatype InventoryEntry = InventoryEntry(upperId: Option<string>, lowerId: Option<string>, body: string)

  /** One bucket of an S3 snapshot; an absent or null setting is `None` or empty. */
  datatype BucketEntry = BucketEntry(name: Option<string>, policy: Option<string>, lifecycle: seq<string>,
                                     encryption: Option<string>, cors: seq<string>, replication: Option<string>,
                                     inventory: seq<InventoryEntry>, notifications: Option<string>)

  /** One rule of an EventBridge snapshot; `state` and `description` are `None` when absent. */
  datatype RuleEntry = RuleEntry(name: Option<string>, state: Option<string>, description: Option<string>,
                                 scheduleExpression: Option<string>, eventPattern: Option<string>,
                                 roleArn: Option<string>, targets: seq<string>)

  /** One function of a Lambda snapshot: its fields, a JSON null being `None`. */
  datatype FunctionEntry = FunctionEntry(fields: map<string, Option<string>>)

  /** A loaded snapshot: the lists each restorer reads (`buckets`, `rules`, `functions`). */
  datatype Config = Config(buckets: seq<BucketEntry>, rules: seq<RuleEntry>, functions: seq<FunctionEntry>)

  /** The mutating API calls of the modelled restorers. */
  datatype Call =
    | PutBucketPolicy(bucket: string, policy: string)
    | PutBucketLifecycle(bucket: string, lifecycleRules: seq<string>)
    | PutBucketEncryption(bucket: string, encryption: string)
    | PutBucketCors(bucket: string, corsRules: seq<string>)
    | PutBucketReplication(bucket: string, replication: string)
    | PutBucketInventory(bucket: string, id: string, entry: string)
    | PutBucketNotification(bucket: string, notification: string)
    | PutRule(ruleName: string, state: string, description: string, options: map<string, string>)
    | PutTargets(rule: string, targets: seq<string>)
    | UpdateFunctionConfiguration(functionName: string, settings: map<string, string>)

  predicate IsBucketCall(c: Call)
  {
    c.PutBucketPolicy? || c.PutBucketLifecycle? || c.PutBucketEncryption? || c.PutBucketCors?
    || c.PutBucketReplication? || c.PutBucketInventory? || c.PutBucketNotification?
  }

  /** The API clients, seen through the mutating calls made on them, in order. */
  class ApiLog {
    var calls: seq<Call>

    constructor ()
      ensures calls == []
    {
      calls := [];
    }

    method Record(c: Call)
      modifies this
      ensures calls == old(calls) + [c]
    {
      calls := calls + [c];
    }
  }

  /** Python's `a or b` on optional strings. */
  function Or(a: Option<string>, b: Option<string>): Option<string>
  {
    if Truthy(a) then a else b
  }

  function When(cond: bool, c: Call): seq<Call>
  {
    if cond then [c] else []
  }

  // ---------------------------------------------------------------------
  // restore_s3

  /** The inventory configurations put back: one per entry with an id. */
  function InventoryCalls(bucket: string, entries: seq<InventoryEntry>): seq<Call>
  {
    if entries == [] then []
    else
      var e := entries[|entries| - 1];
      var id := Or(e.upperId, e.lowerId);
      InventoryCalls(bucket, entries[..|entries| - 1]) + When(Truthy(id), PutBucketInventory(bucket, OrElse(id, ""), e.body))
  }

  /** The settings `restore_s3` puts back on a named bucket, each one only when present. */
  function SettingCalls(n: string, b: BucketEntry): seq<Call>
  {
    When(Truthy(b.policy), PutBucketPolicy(n, OrElse(b.policy, "")))
    + When(b.lifecycle != [], PutBucketLifecycle(n, b.lifecycle))
    + When(Truthy(b.encryption), PutBucketEncryption(n, OrElse(b.encryption, "")))
    + When(b.cors != [], PutBucketCors(n, b.cors))
    + When(Truthy(b.replication), PutBucketReplication(n, OrElse(b.replication, "")))
  }

  /** The inventories and notifications, put back only on request. */
  function ExtraCalls(n: string, b: BucketEntry): seq<Call>
  {
    InventoryCalls(n, b.inventory) + When(Truthy(b.notifications), PutBucketNotification(n, OrElse(b.notifications, "")))
  }

  /** The calls `restore_s3` makes for one bucket entry: none for an entry without a name. */
  function BucketCalls(b: BucketEntry, applyExtras: bool): seq<Call>
  {
    if !Truthy(b.name) then []
    else SettingCalls(b.name.value, b) + (if applyExtras then ExtraCalls(b.name.value, b) else [])
  }

  function S3Calls(buckets: seq<BucketEntry>, applyExtras: bool): seq<Call>
  {
    if buckets == [] then []
    else S3Calls(buckets[..|buckets| - 1], applyExtras) + BucketCalls(buckets[|buckets| - 1], applyExtras)
  }

  /** Every inventory call names the bucket and carries the non-empty id of one of the entries. */
  lemma {:induction false} InventoryCallsHaveIds(bucket: string, entries: seq<InventoryEntry>)
    ensures forall c :: c in InventoryCalls(bucket, entries) ==>
              c.PutBucketInventory? && c.bucket == bucket && c.id != ""
              && exists e :: e in entries && Or(e.upperId, e.lowerId) == Some(c.id) && e.body == c.entry
  {
    if entries != [] {
      var init := entries[..|entries| - 1];
      InventoryCallsHaveIds(bucket, init);
      forall e | e in init
        ensures e in entries
      {
        var k :| 0 <= k < |init| && init[k] == e;
        assert entries[k] == e;
      }
    }
  }

  /** The calls for one entry all name that entry's bucket. */
  lemma BucketCallsTargetBucket(b: BucketEntry, applyExtras: bool)
    ensures forall c :: c in BucketCalls(b, applyExtras) ==>
              IsBucketCall(c) && Truthy(b.name) && c.bucket == b.name.value
              && (c.PutBucketInventory? || c.PutBucketNotification? ==> applyExtras)
  {
    if Truthy(b.name) {
      InventoryCallsHaveIds(b.name.value, b.inventory);
    }
  }

  /**
   * `restore_s3` touches only buckets named in the snapshot, skips entries
   * without a name, and puts inventories and notifications back only when
   * asked to.
   */
  lemma {:induction false} S3CallsTargetNamedBuckets(buckets: seq<BucketEntry>, applyExtras: bool)
    ensures forall c :: c in S3Calls(buckets, applyExtras) ==>
              IsBucketCall(c) && c.bucket != ""
              && (exists b :: b in buckets && b.name == Some(c.bucket))
              && (c.PutBucketInventory? || c.PutBucketNotification? ==> applyExtras)
  {
    if buckets != [] {
      var init := buckets[..|buckets| - 1];
      var b := buckets[|buckets| - 1];
      S3CallsTargetNamedBuckets(init, applyExtras);
      BucketCallsTargetBucket(b, applyExtras);
      assert S3Calls(buckets, applyExtras) == S3Calls(init, applyExtras) + BucketCalls(b, applyExtras);
      forall c | c in S3Calls(buckets, applyExtras)
        ensures exists x :: x in buckets && x.name == Some(c.bucket)
      {
        if c in S3Calls(init, applyExtras) {
          var x :| x in init && x.name == Some(c.bucket);
          var k :| 0 <= k < |init| && init[k] == x;
          assert buckets[k] == x;
        } else {
          assert c in BucketCalls(b, applyExtras);
          assert b in buckets;
        }
      }
    }
  }

  method RestoreInventory(bucket: string, entries: seq<InventoryEntry>, log: ApiLog)
    modifies log
    ensures log.calls == old(log.calls) + InventoryCalls(bucket, entries)
  {
    var i := 0;
    while i < |entries|
      invariant 0 <= i <= |entries|
      invariant log.calls == old(log.calls) + InventoryCalls(bucket, entries[..i])
    {
      assert entries[..i + 1][..i] == entries[..i];
      var id := Or(entries[i].upperId, entries[i].lowerId);
      if Truthy(id) {
        log.Record(PutBucketInventory(bucket, id.value, entries[i].body));
      }
      i := i + 1;
    }
    assert entries[..i] == entries;
  }

  /** The body of `restore_s3`'s loop for one bucket entry. */
  method RestoreBucket(b: BucketEntry, applyExtras: bool, log: ApiLog)
    modifies log
    ensures log.calls == old(log.calls) + BucketCalls(b, applyExtras)
  {
    if !Truthy(b.name) {
      assert BucketCalls(b, applyExtras) == [];
      return;
    }
    var n := b.name.value;
    ghost var c0 := log.calls;
    PutSettings(n, b, log);
    ghost var c1 := log.calls;
    if applyExtras {
      PutExtras(n, b, log);
    } else {
      assert log.calls == c1 + [];
    }
    AppendShift(c0, SettingCalls(n, b), if applyExtras then ExtraCalls(n, b) else [], c1, log.calls);
  }

  /** One gated call of a restorer: made only when its setting is present. */
  method PutWhen(cond: bool, c: Call, log: ApiLog)
    modifies log
    ensures log.calls == old(log.calls) + When(cond, c)
  {
    if cond {
      log.Record(c);
    }
  }

  method PutSettings(n: string, b: BucketEntry, log: ApiLog)
    modifies log
    ensures log.calls == old(log.calls) + SettingCalls(n, b)
  {
    ghost var c0 := log.calls;
    PutWhen(Truthy(b.policy), PutBucketPolicy(n, OrElse(b.policy, "")), log);
    ghost var c1 := log.calls;
    PutWhen(b.lifecycle != [], PutBucketLifecycle(n, b.lifecycle), log);
    ghost var c2 := log.calls;
    PutWhen(Truthy(b.encryption), PutBucketEncryption(n, OrElse(b.encryption, "")), log);
    ghost var c3 := log.calls;
    PutWhen(b.cors != [], PutBucketCors(n, b.cors), log);
    ghost var c4 := log.calls;
    PutWhen(Truthy(b.replication), PutBucketReplication(n, OrElse(b.replication, "")), log);
    AppendFive(c0, c1, c2, c3, c4, log.calls,
               When(Truthy(b.policy), PutBucketPolicy(n, OrElse(b.policy, ""))),
               When(b.lifecycle != [], PutBucketLifecycle(n, b.lifecycle)),
               When(Truthy(b.encryption), PutBucketEncryption(n, OrElse(b.encryption, ""))),
               When(b.cors != [], PutBucketCors(n, b.cors)),
               When(Truthy(b.replication), PutBucketReplication(n, OrElse(b.replication, ""))));
  }

  /** Five appends in a row add their concatenation. */
  lemma AppendFive(c0: seq<Call>, c1: seq<Call>, c2: seq<Call>, c3: seq<Call>, c4: seq<Call>, c5: seq<Call>,
                   w1: seq<Call>, w2: seq<Call>, w3: seq<Call>, w4: seq<Call>, w5: seq<Call>)
    requires c1 == c0 + w1 && c2 == c1 + w2 && c3 == c2 + w3 && c4 == c3 + w4 && c5 == c4 + w5
    ensures c5 == c0 + (w1 + w2 + w3 + w4 + w5)
  {
    assert c2 == c0 + (w1 + w2);
    assert c3 == c0 + (w1 + w2 + w3);
    assert c4 == c0 + (w1 + w2 + w3 + w4);
  }

  method PutExtras(n: string, b: BucketEntry, log: ApiLog)
    modifies log
    ensures log.calls == old(log.calls) + ExtraCalls(n, b)
  {
    if b.inventory != [] {
      RestoreInventory(n, b.inventory, log);
    }
    if Truthy(b.notifications) {
      log.Record(PutBucketNotification(n, b.notifications.value));
    }
  }

  /** One bucket entry more adds its calls at the end. */
  lemma S3CallsStep(buckets: seq<BucketEntry>, i: nat, applyExtras: bool)
    requires i < |buckets|
    ensures S3Calls(buckets[..i + 1], applyExtras) == S3Calls(buckets[..i], applyExtras) + BucketCalls(buckets[i], applyExtras)
  {
    assert buckets[..i + 1][..i] == buckets[..i];
  }

  lemma AppendAssoc(a: seq<Call>, b: seq<Call>, c: seq<Call>)
    ensures a + b + c == a + (b + c)
  {
  }

  /** `restore_s3`: every bucket entry in order; a dry run calls nothing. */
  method RestoreS3(buckets: seq<BucketEntry>, yes: bool, applyExtras: bool, log: ApiLog)
    modifies log
    ensures log.calls == old(log.calls) + (if yes then S3Calls(buckets, applyExtras) else [])
  {
    if !yes {
      // a dry run only prints the calls it would make
      return;
    }
    var i := 0;
    while i < |buckets|
      invariant 0 <= i <= |buckets|
      invariant log.calls == old(log.calls) + S3Calls(buckets[..i], applyExtras)
    {
      ghost var before := log.calls;
      RestoreBucket(buckets[i], applyExtras, log);
      S3CallsStep(buckets, i, applyExtras);
      AppendShift(old(log.calls), S3Calls(buckets[..i], applyExtras), BucketCalls(buckets[i], applyExtras),
                  before, log.calls);
      i := i + 1;
    }
    assert buckets[..i] == buckets;
  }

  /** What is appended after `done` joins it. */
  lemma AppendShift(start: seq<Call>, done: seq<Call>, step: seq<Call>, before: seq<Call>, after: seq<Call>)
    requires before == start + done && after == before + step
    ensures after == start + (done + step)
  {
  }

  // ---------------------------------------------------------------------
  // restore_eventbridge

  /** The optional arguments of `put_rule`: each present exactly when its value is truthy. */
  function RuleOptions(r: RuleEntry): (m: map<string, string>)
    ensures "RoleArn" in m <==> Truthy(r.roleArn)
    ensures "ScheduleExpression" in m <==> Truthy(r.scheduleExpression)
    ensures "EventPattern" in m <==> Truthy(r.eventPattern)
    ensures forall k :: k in m ==> k in {"RoleArn", "ScheduleExpression", "EventPattern"}
    ensures "RoleArn" in m ==> m["RoleArn"] == r.roleArn.value
    ensures "ScheduleExpression" in m ==> m["ScheduleExpression"] == r.scheduleExpression.value
    ensures "EventPattern" in m ==> m["EventPattern"] == r.eventPattern.value
  {
    var withRole := if Truthy(r.roleArn) then map["RoleArn" := r.roleArn.value] else map[];
    var withSchedule := if Truthy(r.scheduleExpression) then withRole["ScheduleExpression" := r.scheduleExpression.value]
                        else withRole;
    if Truthy(r.eventPattern) then withSchedule["EventPattern" := r.eventPattern.value] else withSchedule
  }

  /** The calls for one rule: the rule, then its targets when it has any. */
  function RuleCalls(r: RuleEntry): seq<Call>
  {
    if !Truthy(r.name) then []
    else
      [PutRule(r.name.value, if r.state.Some? then r.state.value else "ENABLED",
               if r.description.Some? then r.description.value else "", RuleOptions(r))]
      + When(r.targets != [], PutTargets(r.name.value, r.targets))
  }

  function EventBridgeCalls(rules: seq<RuleEntry>): seq<Call>
  {
    if rules == [] then [] else EventBridgeCalls(rules[..|rules| - 1]) + RuleCalls(rules[|rules| - 1])
  }

  /** A rule's calls are its `put_rule`, then at most one `put_targets` for the same rule. */
  lemma RuleCallsShape(r: RuleEntry)
    ensures var calls := RuleCalls(r);
            forall j :: 0 <= j < |calls| && calls[j].PutTargets? ==>
              j == 1 && calls[0].PutRule? && calls[0].ruleName == calls[1].rule
  {
  }

  /** Every `put_targets` of the calls comes right after the `put_rule` of the same rule. */
  predicate RuleBeforeTargets(calls: seq<Call>)
  {
    forall i :: 0 <= i < |calls| && calls[i].PutTargets? ==>
      i > 0 && calls[i - 1].PutRule? && calls[i - 1].ruleName == calls[i].rule
  }

  /**
   * Every `put_targets` comes right after the `put_rule` of the same rule,
   * and every rule put has a name.
   */
  lemma {:induction false} TargetsFollowTheirRule(rules: seq<RuleEntry>)
    ensures RuleBeforeTargets(EventBridgeCalls(rules))
    ensures forall c :: c in EventBridgeCalls(rules) ==> (c.PutRule? || c.PutTargets?)
    ensures forall c :: c in EventBridgeCalls(rules) && c.PutRule? ==> c.ruleName != ""
  {
    if rules != [] {
      var init := EventBridgeCalls(rules[..|rules| - 1]);
      var last := RuleCalls(rules[|rules| - 1]);
      TargetsFollowTheirRule(rules[..|rules| - 1]);
      RuleCallsShape(rules[|rules| - 1]);
      var calls := init + last;
      assert calls == EventBridgeCalls(rules);
      forall i | 0 <= i < |calls| && calls[i].PutTargets?
        ensures i > 0 && calls[i - 1].PutRule? && calls[i - 1].ruleName == calls[i].rule
      {
        if i >= |init| {
          assert last[i - |init|] == calls[i];
          assert calls[i - 1] == last[0];
        } else {
          assert calls[i] == init[i];
          assert calls[i - 1] == init[i - 1];
        }
      }
    }
  }

  /** `restore_eventbridge`: every rule in order; a dry run calls nothing. */
  method RestoreEventBridge(rules: seq<RuleEntry>, yes: bool, log: ApiLog)
    modifies log
    ensures log.calls == old(log.calls) + (if yes then EventBridgeCalls(rules) else [])
  {
    if !yes {
      // a dry run only prints the calls it would make
      return;
    }
    var i := 0;
    while i < |rules|
      invariant 0 <= i <= |rules|
      invariant log.calls == old(log.calls) + EventBridgeCalls(rules[..i])
    {
      ghost var before := log.calls;
      RestoreRule(rules[i], log);
      EventBridgeCallsStep(rules, i);
      AppendShift(old(log.calls), EventBridgeCalls(rules[..i]), RuleCalls(rules[i]), before, log.calls);
      i := i + 1;
    }
    assert rules[..i] == rules;
  }

  /** The body of `restore_eventbridge`'s loop for one rule. */
  method RestoreRule(r: RuleEntry, log: ApiLog)
    modifies log
    ensures log.calls == old(log.calls) + RuleCalls(r)
  {
    if !Truthy(r.name) {
      return;
    }
    var rule := PutRule(r.name.value, if r.state.Some? then r.state.value else "ENABLED",
                        if r.description.Some? then r.description.value else "", RuleOptions(r));
    log.Record(rule);
    PutWhen(r.targets != [], PutTargets(r.name.value, r.targets), log);
  }

  /** One rule more adds its calls at the end. */
  lemma EventBridgeCallsStep(rules: seq<RuleEntry>, i: nat)
    requires i < |rules|
    ensures EventBridgeCalls(rules[..i + 1]) == EventBridgeCalls(rules[..i]) + RuleCalls(rules[i])
  {
    assert rules[..i + 1][..i] == rules[..i];
  }

  // ---------------------------------------------------------------------
  // restore_lambda_cfg

  /** The snapshot field and the `update_function_configuration` argument it fills. */
  const FunctionSettings: seq<(string, string)> :=
    [("role", "Role"), ("handler", "Handler"), ("runtime", "Runtime"), ("memory_size", "MemorySize"),
     ("timeout", "Timeout"), ("dead_letter_config", "DeadLetterConfig"), ("tracing_config", "TracingConfig"),
     ("vpc_config", "VpcConfig"), ("environment", "Environment"), ("layers", "Layers")]

  /** `fn.get(k)`. */
  function Get(fields: map<string, Option<string>>, k: string): Option<string>
  {
    if k in fields then fields[k] else None
  }

  /** `fn.get(src) or fn.get(dst)`. */
  function Mapped(fields: map<string, Option<string>>, pair: (string, string)): Option<string>
  {
    Or(Get(fields, pair.0), Get(fields, pair.1))
  }

  /** The keyword arguments: each target whose mapped value is not None. */
  function Settings(fields: map<string, Option<string>>, pairs: seq<(string, string)>): map<string, string>
  {
    if pairs == [] then map[]
    else
      var last := pairs[|pairs| - 1];
      var v := Mapped(fields, last);
      if v.Some? then Settings(fields, pairs[..|pairs| - 1])[last.1 := v.value]
      else Settings(fields, pairs[..|pairs| - 1])
  }

  /**
   * An argument is passed exactly when one of its fields maps to a value
   * that is not None, and its value is the mapped one of the last such pair.
   */
  lemma {:induction false} SettingsMembers(fields: map<string, Option<string>>, pairs: seq<(string, string)>,
                                           k: string)
    ensures k in Settings(fields, pairs) <==>
              exists i :: 0 <= i < |pairs| && pairs[i].1 == k && Mapped(fields, pairs[i]).Some?
    ensures k in Settings(fields, pairs) ==>
              exists i :: 0 <= i < |pairs| && pairs[i].1 == k && Mapped(fields, pairs[i]) == Some(Settings(fields, pairs)[k])
  {
    if pairs != [] {
      var init := pairs[..|pairs| - 1];
      SettingsMembers(fields, init, k);
      assert forall i :: 0 <= i < |init| ==> init[i] == pairs[i];
    }
  }

  /** The function name: `function_name`, else `FunctionName`, else `name`. */
  function FunctionName(fn: FunctionEntry): Option<string>
  {
    Or(Or(Get(fn.fields, "function_name"), Get(fn.fields, "FunctionName")), Get(fn.fields, "name"))
  }

  function FunctionCalls(fn: FunctionEntry): seq<Call>
  {
    var name := FunctionName(fn);
    var settings := Settings(fn.fields, FunctionSettings);
    When(Truthy(name) && settings != map[], UpdateFunctionConfiguration(OrElse(name, ""), settings))
  }

  function LambdaCalls(fns: seq<FunctionEntry>): seq<Call>
  {
    if fns == [] then [] else LambdaCalls(fns[..|fns| - 1]) + FunctionCalls(fns[|fns| - 1])
  }

  /**
   * A function is updated at most once, only with a name and at least one
   * setting, and only with the configuration arguments of the table.
   */
  lemma {:induction false} LambdaUpdatesCarrySettings(fns: seq<FunctionEntry>)
    ensures |LambdaCalls(fns)| <= |fns|
    ensures forall c :: c in LambdaCalls(fns) ==>
              c.UpdateFunctionConfiguration? && c.functionName != "" && c.settings != map[]
              && forall k :: k in c.settings ==> exists i :: 0 <= i < |FunctionSettings| && FunctionSettings[i].1 == k
  {
    if fns != [] {
      LambdaUpdatesCarrySettings(fns[..|fns| - 1]);
      var settings := Settings(fns[|fns| - 1].fields, FunctionSettings);
      forall k | k in settings
        ensures exists i :: 0 <= i < |FunctionSettings| && FunctionSettings[i].1 == k
      {
        SettingsMembers(fns[|fns| - 1].fields, FunctionSettings, k);
      }
    }
  }

  /** The arguments gathered by `restore_lambda_cfg`'s inner loop. */
  method GatherSettings(fields: map<string, Option<string>>) returns (kwargs: map<string, string>)
    ensures kwargs == Settings(fields, FunctionSettings)
  {
    kwargs := map[];
    var i := 0;
    while i < |FunctionSettings|
      invariant 0 <= i <= |FunctionSettings|
      invariant kwargs == Settings(fields, FunctionSettings[..i])
    {
      assert FunctionSettings[..i + 1][..i] == FunctionSettings[..i];
      var (src, dst) := FunctionSettings[i];
      var v := Or(Get(fields, src), Get(fields, dst));
      if v.Some? {
        kwargs := kwargs[dst := v.value];
      }
      i := i + 1;
    }
    assert FunctionSettings[..i] == FunctionSettings;
  }

  /** `restore_lambda_cfg`: every function in order; a dry run calls nothing. */
  method RestoreLambda(fns: seq<FunctionEntry>, yes: bool, log: ApiLog)
    modifies log
    ensures log.calls == old(log.calls) + (if yes then LambdaCalls(fns) else [])
  {
    if !yes {
      // a dry run only prints the calls it would make
      return;
    }
    var i := 0;
    while i < |fns|
      invariant 0 <= i <= |fns|
      invariant log.calls == old(log.calls) + LambdaCalls(fns[..i])
    {
      ghost var before := log.calls;
      RestoreFunction(fns[i], log);
      LambdaCallsStep(fns, i);
      AppendShift(old(log.calls), LambdaCalls(fns[..i]), FunctionCalls(fns[i]), before, log.calls);
      i := i + 1;
    }
    assert fns[..i] == fns;
  }

  /** The body of `restore_lambda_cfg`'s loop for one function. */
  method RestoreFunction(fn: FunctionEntry, log: ApiLog)
    modifies log
    ensures log.calls == old(log.calls) + FunctionCalls(fn)
  {
    var name := FunctionName(fn);
    if Truthy(name) {
      var kwargs := GatherSettings(fn.fields);
      if kwargs != map[] {
        log.Record(UpdateFunctionConfiguration(name.value, kwargs));
      }
    }
  }

  /** One function more adds its update at the end. */
  lemma LambdaCallsStep(fns: seq<FunctionEntry>, i: nat)
    requires i < |fns|
    ensures LambdaCalls(fns[..i + 1]) == LambdaCalls(fns[..i]) + FunctionCalls(fns[i])
  {
    assert fns[..i + 1][..i] == fns[..i];
  }

  // ---------------------------------------------------------------------
  // main

  /** The calls a restored snapshot makes, by service. */
  function ServiceCalls(service: string, cfg: Config, applyExtras: bool): seq<Call>
  {
    if service == "s3" then S3Calls(cfg.buckets, applyExtras)
    else if service == "eventbridge" then EventBridgeCalls(cfg.rules)
    else if service == "lambda" then LambdaCalls(cfg.functions)
    else []
  }

  method RestoreService(service: string, cfg: Config, yes: bool, applyExtras: bool, log: ApiLog)
    modifies log
    ensures log.calls == old(log.calls) + (if yes then ServiceCalls(service, cfg, applyExtras) else [])
  {
    if service == "s3" {
      RestoreS3(cfg.buckets, yes, applyExtras, log);
    } else if service == "eventbridge" {
      RestoreEventBridge(cfg.rules, yes, log);
    } else if service == "lambda" {
      RestoreLambda(cfg.functions, yes, log);
    }
  }

  /** The command line as `main` reads it. */
  datatype Args = Args(bucket: string, initiative: string, criticality: string, mode: Mode,
                       servicesCsv: Option<string>, serviceArgs: seq<string>, all: bool, yes: bool,
                       applyExtras: bool)

  /** The prefix a run lists for a service. */
  function SnapshotPrefix(args: Args, service: string): string
  {
    BuildPrefixFixed(args.initiative, args.criticality, service)
  }

  /** The calls of the services processed so far: a chosen snapshot that loads is replayed, unless on a dry run. */
  function RunCalls(services: seq<string>, picks: seq<Option<string>>, load: string -> Result<Config>,
                    yes: bool, applyExtras: bool): seq<Call>
    requires |services| == |picks|
  {
    if services == [] then []
    else
      var n := |services| - 1;
      RunCalls(services[..n], picks[..n], load, yes, applyExtras)
      + ReplayCalls(services[n], picks[n], load, yes, applyExtras)
  }

  /** The calls for one service: its chosen snapshot replayed, when there is one, it loads and the run is not dry. */
  function ReplayCalls(service: string, pick: Option<string>, load: string -> Result<Config>, yes: bool,
                       applyExtras: bool): seq<Call>
  {
    if yes && Truthy(pick) && load(pick.value).Ok? then ServiceCalls(service, load(pick.value).value, applyExtras)
    else []
  }

  lemma RunCallsStep(services: seq<string>, picks: seq<Option<string>>, i: nat, load: string -> Result<Config>,
                     yes: bool, applyExtras: bool)
    requires i < |services| && |picks| == i + 1
    ensures RunCalls(services[..i + 1], picks, load, yes, applyExtras)
            == RunCalls(services[..i], picks[..i], load, yes, applyExtras)
               + ReplayCalls(services[i], picks[i], load, yes, applyExtras)
  {
    assert services[..i + 1][..i] == services[..i];
  }

  /** Each service processed so far had its snapshot chosen from the listing under its prefix. */
  ghost predicate AllChose(args: Args, services: seq<string>, prefixOf: string -> string,
                           list: string -> seq<ListedObject>, chosen: seq<Option<string>>)
  {
    |chosen| <= |services|
    && forall j :: 0 <= j < |chosen| ==> Chose(args.mode, list(prefixOf(services[j])), chosen[j])
  }

  lemma AllChoseStep(args: Args, services: seq<string>, prefixOf: string -> string,
                     list: string -> seq<ListedObject>, chosen: seq<Option<string>>, p: Option<string>)
    requires AllChose(args, services, prefixOf, list, chosen) && |chosen| < |services|
    requires Chose(args.mode, list(prefixOf(services[|chosen|])), p)
    ensures AllChose(args, services, prefixOf, list, chosen + [p])
  {
    var next := chosen + [p];
    forall j | 0 <= j < |next|
      ensures Chose(args.mode, list(prefixOf(services[j])), next[j])
    {
      if j < |chosen| {
        assert next[j] == chosen[j];
      }
    }
  }

  /**
   * The per-service loop of `main`: choose a snapshot under the service's
   * prefix, skip the service when there is none, load it (a load error ends
   * the run) and replay it. `prefixOf` builds a service's prefix.
   */
  method ProcessServices(args: Args, services: seq<string>, prefixOf: string -> string,
                         list: string -> seq<ListedObject>, load: string -> Result<Config>, log: ApiLog)
    returns (code: Result<int>, chosen: seq<Option<string>>)
    modifies log
    ensures code.Ok? ==> code.value == 0 && |chosen| == |services|
    ensures code.Err? ==> 0 < |chosen| <= |services| && Truthy(chosen[|chosen| - 1])
                          && load(chosen[|chosen| - 1].value) == Err(code.error)
    ensures |chosen| <= |services|
    ensures forall j :: 0 <= j < |chosen| ==> Chose(args.mode, list(prefixOf(services[j])), chosen[j])
    ensures forall j :: 0 <= j < |chosen| - 1 && Truthy(chosen[j]) ==> load(chosen[j].value).Ok?
    ensures log.calls == old(log.calls)
                         + RunCalls(services[..|chosen|], chosen, load, args.yes, args.applyExtras)
  {
    chosen := [];
    var i := 0;
    while i < |services|
      invariant 0 <= i <= |services| && |chosen| == i
      invariant AllChose(args, services, prefixOf, list, chosen)
      invariant forall j :: 0 <= j < i && Truthy(chosen[j]) ==> load(chosen[j].value).Ok?
      invariant log.calls == old(log.calls)
                             + RunCalls(services[..i], chosen, load, args.yes, args.applyExtras)
    {
      var failed;
      chosen, failed := ProcessNext(args, services, prefixOf, list, load, log, chosen, old(log.calls));
      if failed.Some? {
        return Err(failed.value), chosen;
      }
      i := i + 1;
    }
    assert services[..i] == services;
    code := Ok(0);
  }

  /** One pass of `main`'s loop, with what it adds to the choices and to the calls made. */
  method ProcessNext(args: Args, services: seq<string>, prefixOf: string -> string,
                     list: string -> seq<ListedObject>, load: string -> Result<Config>, log: ApiLog,
                     chosen: seq<Option<string>>, ghost start: seq<Call>)
    returns (next: seq<Option<string>>, failed: Option<Error>)
    requires |chosen| < |services| && AllChose(args, services, prefixOf, list, chosen)
    requires forall j :: 0 <= j < |chosen| && Truthy(chosen[j]) ==> load(chosen[j].value).Ok?
    requires log.calls == start + RunCalls(services[..|chosen|], chosen, load, args.yes, args.applyExtras)
    modifies log
    ensures |next| == |chosen| + 1 && next[..|chosen|] == chosen && AllChose(args, services, prefixOf, list, next)
    ensures failed.Some? <==> Truthy(next[|chosen|]) && load(next[|chosen|].value).Err?
    ensures failed.Some? ==> load(next[|chosen|].value) == Err(failed.value)
    ensures forall j :: 0 <= j < |next| - 1 && Truthy(next[j]) ==> load(next[j].value).Ok?
    ensures failed.None? ==> forall j :: 0 <= j < |next| && Truthy(next[j]) ==> load(next[j].value).Ok?
    ensures log.calls == start + RunCalls(services[..|chosen| + 1], next, load, args.yes, args.applyExtras)
  {
    var i := |chosen|;
    ghost var before := log.calls;
    var p;
    p, failed := ProcessService(args, services[i], prefixOf, list, load, log);
    AllChoseStep(args, services, prefixOf, list, chosen, p);
    next := chosen + [p];
    assert next[..i] == chosen;
    RunCallsStep(services, next, i, load, args.yes, args.applyExtras);
    AppendShift(start, RunCalls(services[..i], chosen, load, args.yes, args.applyExtras),
                ReplayCalls(services[i], p, load, args.yes, args.applyExtras), before, log.calls);
  }

  /**
   * The body of `main`'s loop for one service: choose its snapshot, load it
   * and replay it. A snapshot that cannot be loaded is the error returned.
   */
  method ProcessService(args: Args, svc: string, prefixOf: string -> string,
                        list: string -> seq<ListedObject>, load: string -> Result<Config>, log: ApiLog)
    returns (p: Option<string>, failed: Option<Error>)
    modifies log
    ensures Chose(args.mode, list(prefixOf(svc)), p)
    ensures failed.Some? <==> Truthy(p) && load(p.value).Err?
    ensures failed.Some? ==> load(p.value) == Err(failed.value)
    ensures log.calls == old(log.calls) + ReplayCalls(svc, p, load, args.yes, args.applyExtras)
  {
    p := PickSnapshot(args.mode, list(prefixOf(svc)));
    if !Truthy(p) {
      assert log.calls == old(log.calls) + [];
      return p, None;
    }
    var cfg := load(p.value);
    if cfg.Err? {
      assert log.calls == old(log.calls) + [];
      return p, Some(cfg.error);
    }
    RestoreService(svc, cfg.value, args.yes, args.applyExtras, log);
    failed := None;
  }

  /** A dry run replays nothing. */
  lemma {:induction false} DryRunCallsNothing(services: seq<string>, picks: seq<Option<string>>,
                                              load: string -> Result<Config>, applyExtras: bool)
    requires |services| == |picks|
    ensures RunCalls(services, picks, load, false, applyExtras) == []
  {
    if services != [] {
      var n := |services| - 1;
      DryRunCallsNothing(services[..n], picks[..n], load, applyExtras);
    }
  }

  /**
   * `main`: resolve the services, answer 2 before any work when one is not
   * supported, then restore them in order and answer 0. A snapshot that
   * cannot be loaded ends the run with its error. A dry run calls nothing.
   */
  method Run(args: Args, list: string -> seq<ListedObject>, load: string -> Result<Config>, log: ApiLog)
    returns (code: Result<int>, chosen: seq<Option<string>>)
    modifies log
    ensures var services := Requested(args.all, args.servicesCsv, args.serviceArgs);
            (code == Ok(2) <==> exists s :: s in services && s !in CliServices)
            && (code == Ok(2) ==> chosen == [] && log.calls == old(log.calls))
            && (code.Ok? ==> code.value in {0, 2})
            && (code == Ok(0) ==> |chosen| == |services|)
            && (code.Err? ==> 0 < |chosen| <= |services| && Truthy(chosen[|chosen| - 1])
                              && load(chosen[|chosen| - 1].value) == Err(code.error))
            && (code != Ok(2) ==>
                  |chosen| <= |services|
                  && (forall j :: 0 <= j < |chosen| ==>
                        Chose(args.mode, list(SnapshotPrefix(args, services[j])), chosen[j]))
                  && log.calls == old(log.calls) + RunCalls(services[..|chosen|], chosen, load, args.yes, args.applyExtras))
    ensures !args.yes ==> log.calls == old(log.calls)
    ensures args.all ==> code != Ok(2)
  {
    var services := ResolveServices(args.all, args.servicesCsv, args.serviceArgs);
    DependencyOrderSupported();
    var bad := FirstUnsupported(services);
    if bad.Some? {
      return Ok(2), [];
    }
    code, chosen := ProcessServices(args, services, s => SnapshotPrefix(args, s), list, load, log);
    if !args.yes {
      DryRunCallsNothing(services[..|chosen|], chosen, load, args.applyExtras);
    }
  }
}
