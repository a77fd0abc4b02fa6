/**
 * The configuration snapshot lambda: each included AWS service is exported
 * to one JSON snapshot under a Hive-style key in the central bucket, and a
 * summary of the run (services, resource total, snapshot keys) is saved
 * last. Any failure answers status 500.
 */
module BackupConfigurations {
  import opened Base
  import opened Strings
  import opened Stamps
  import opened ObjectStore
  import LaunchBatchJob

  // ---------------------------------------------------------------------
  // snapshot keys

  function SnapshotSegments(initiative: string, service: string, t: DateTime): seq<string>
  {
    ["backup", "criticality=Critico", "backup_type=configurations", "initiative=" + initiative,
     "service=" + service]
    + LaunchBatchJob.HourSegments(t) + [service + "_" + SnapshotStamp(t) + ".json"]
  }

  /** `save_to_s3`'s key: always under `criticality=Critico`. */
  function SnapshotKey(initiative: string, service: string, t: DateTime): string
  {
    Join(SnapshotSegments(initiative, service, t), '/')
  }

  /** Read back segment by segment, a snapshot key names its criticality, initiative, service and hour. */
  lemma SnapshotKeyParts(initiative: string, service: string, t: DateTime)
    requires '/' !in initiative && '/' !in service
    ensures var parts := Split(SnapshotKey(initiative, service, t), '/');
            |parts| == 10 && parts == SnapshotSegments(initiative, service, t)
            && parts[1] == "criticality=Critico" && parts[3] == "initiative=" + initiative
            && parts[4] == "service=" + service && parts[5..9] == LaunchBatchJob.HourSegments(t)
            && EndsWith(parts[9], ".json")
  {
    var segs := SnapshotSegments(initiative, service, t);
    LaunchBatchJob.HourSegmentsPlain(t);
    assert segs[5..9] == LaunchBatchJob.HourSegments(t);
    assert '/' !in SnapshotStamp(t) by {
      assert forall i :: 0 <= i < |SnapshotStamp(t)| ==> SnapshotStamp(t)[i] != '/';
    }
    assert forall i :: 0 <= i < |segs| ==> '/' !in segs[i];
    SplitJoin(segs, '/');
  }

  /** Snapshots of two services (or of one service at two seconds) never share a key. */
  lemma SnapshotKeyInjective(initiative: string, s1: string, s2: string, t1: DateTime, t2: DateTime)
    requires '/' !in initiative && '/' !in s1 && '/' !in s2
    requires SnapshotKey(initiative, s1, t1) == SnapshotKey(initiative, s2, t2)
    ensures s1 == s2 && SnapshotStamp(t1) == SnapshotStamp(t2)
  {
    SnapshotKeyParts(initiative, s1, t1);
    SnapshotKeyParts(initiative, s2, t2);
    var a := Split(SnapshotKey(initiative, s1, t1), '/');
    assert a[4] == "service=" + s1 == "service=" + s2;
    assert s1 == ("service=" + s1)[8..] == ("service=" + s2)[8..] == s2;
    var f1 := s1 + "_" + SnapshotStamp(t1) + ".json";
    var f2 := s2 + "_" + SnapshotStamp(t2) + ".json";
    assert f1 == a[9] == f2;
    assert SnapshotStamp(t1) == f1[|s1| + 1..|s1| + 16] == f2[|s2| + 1..|s2| + 16] == SnapshotStamp(t2);
  }

  // ---------------------------------------------------------------------
  // redaction and name filters

  /** The connection properties with PASSWORD, when present, replaced. */
  function Redacted(props: map<string, string>): (r: map<string, string>)
    ensures r.Keys == props.Keys
    ensures "PASSWORD" in props ==> r["PASSWORD"] == "***REDACTED***"
    ensures forall k :: k in props && k != "PASSWORD" ==> r[k] == props[k]
  {
    if "PASSWORD" in props then props["PASSWORD" := "***REDACTED***"] else props
  }

  /** No password survives redaction, and redacting again changes nothing. */
  lemma RedactedIdempotent(props: map<string, string>)
    ensures Redacted(Redacted(props)) == Redacted(props)
    ensures forall k :: k in Redacted(props) && k == "PASSWORD" ==> Redacted(props)[k] == "***REDACTED***"
  {
  }

  const LambdaKeywords: seq<string> := ["backup", "bck", "data"]
  const IamKeywords: seq<string> := ["backup", "bck", "glue", "lambda", "data", "lake", "athena"]
  const StateMachineKeywords: seq<string> := ["backup", "bck", "data"]
  const RuleKeywords: seq<string> := ["backup", "bck", "data", "sweep"]

  /** `any(keyword in name.lower() for keyword in keywords)`. */
  predicate Relevant(name: string, keywords: seq<string>)
  {
    exists i :: 0 <= i < |keywords| && Contains(Lower(name), keywords[i])
  }

  /** The names an exporter keeps, in listing order. */
  function KeptNames(names: seq<string>, keywords: seq<string>): (r: seq<string>)
    ensures forall n :: n in r <==> n in names && Relevant(n, keywords)
    ensures |r| <= |names|
  {
    if names == [] then []
    else
      var rest := KeptNames(names[..|names| - 1], keywords);
      var last := names[|names| - 1];
      assert names == names[..|names| - 1] + [last];
      if Relevant(last, keywords) then rest + [last] else rest
  }

  /** The Lambda keywords are among the IAM ones, so a name the Lambda filter keeps the IAM filter keeps too. */
  lemma LambdaNamesAreIamNames(names: seq<string>)
    ensures forall n :: n in KeptNames(names, LambdaKeywords) ==> n in KeptNames(names, IamKeywords)
  {
    forall n | n in KeptNames(names, LambdaKeywords)
      ensures n in KeptNames(names, IamKeywords)
    {
      var i :| 0 <= i < |LambdaKeywords| && Contains(Lower(n), LambdaKeywords[i]);
      var j := if i == 0 then 0 else if i == 1 then 1 else 4;
      assert IamKeywords[j] == LambdaKeywords[i];
    }
  }

  // ---------------------------------------------------------------------
  // the handler

  /** INCLUDE_GLUE … INCLUDE_RDS (S3 is always exported). */
  datatype Flags = Flags(glue: bool, athena: bool, lambda: bool, iam: bool, stepFunctions: bool,
                         eventBridge: bool, dynamoDb: bool, rds: bool)

  /** A service of the run: its name in the summary, its snapshot folder and the counts it adds. */
  datatype ServiceSpec = ServiceSpec(name: string, folder: string, countFields: seq<string>)

  const S3Service := ServiceSpec("S3", "s3_buckets", ["total_buckets"])
  const GlueService := ServiceSpec("Glue", "glue", ["total_databases", "total_tables", "total_jobs", "total_crawlers"])
  const AthenaService := ServiceSpec("Athena", "athena", ["total_workgroups", "total_data_catalogs",
                                                          "total_named_queries", "total_prepared_statements"])
  const LambdaService := ServiceSpec("Lambda", "lambda_functions", ["total_functions"])
  const IamService := ServiceSpec("IAM", "iam_roles", ["total_roles"])
  const StepFunctionsService := ServiceSpec("StepFunctions", "step_functions", ["total_state_machines"])
  const EventBridgeService := ServiceSpec("EventBridge", "eventbridge_rules", ["total_rules"])
  const DynamoDbService := ServiceSpec("DynamoDB", "dynamodb_tables", ["total_tables"])
  const RdsService := ServiceSpec("RDS", "rds", ["total_instances"])

  /** Every service, in the fixed order of the handler. */
  const Services: seq<ServiceSpec> := [S3Service, GlueService, AthenaService, LambdaService, IamService,
                                       StepFunctionsService, EventBridgeService, DynamoDbService, RdsService]

  /** Which of `Services` a run exports: S3 always, the others by their flag. */
  function Switches(flags: Flags): (r: seq<bool>)
    ensures |r| == |Services| && r[0]
  {
    [true, flags.glue, flags.athena, flags.lambda, flags.iam, flags.stepFunctions, flags.eventBridge,
     flags.dynamoDb, flags.rds]
  }

  /** The switched-on services, in order. */
  function Selected(specs: seq<ServiceSpec>, on: seq<bool>): (r: seq<ServiceSpec>)
    requires |specs| == |on|
    ensures |r| <= |specs|
    ensures forall x :: x in r ==> x in specs
    ensures |specs| > 0 && on[0] ==> |r| > 0 && r[0] == specs[0]
  {
    if specs == [] then []
    else (if on[0] then [specs[0]] else []) + Selected(specs[1..], on[1..])
  }

  /** The services a run exports. */
  function Plan(flags: Flags): seq<ServiceSpec>
  {
    Selected(Services, Switches(flags))
  }

  /** What an exporter returns: its counters and the JSON text of its snapshot. */
  datatype Export = Export(counts: map<string, int>, body: string)

  /** The sum of the named counters; a missing counter raises `KeyError`. */
  function Contribution(counts: map<string, int>, fields: seq<string>): (r: Result<int>)
    ensures r.Ok? <==> forall i :: 0 <= i < |fields| ==> fields[i] in counts
  {
    if fields == [] then Ok(0)
    else
      match Contribution(counts, fields[..|fields| - 1])
        case Err(e) => Err(e)
        case Ok(sum) =>
          var f := fields[|fields| - 1];
          if f in counts then Ok(sum + counts[f]) else Err(KeyError(f))
  }

  /** A counter that is not among the fields does not change the contribution. */
  lemma {:induction false} ContributionIgnores(counts: map<string, int>, fields: seq<string>, k: string, v: int)
    requires k !in fields
    ensures Contribution(counts[k := v], fields) == Contribution(counts, fields)
  {
    if fields != [] {
      ContributionIgnores(counts, fields[..|fields| - 1], k, v);
    }
  }

  /** Glue connections, triggers and workflows are exported but never counted in the total. */
  lemma GlueTotalExcludesConnections(counts: map<string, int>, c: int, t: int, w: int)
    ensures Contribution(counts["total_connections" := c]["total_triggers" := t]["total_workflows" := w],
                         GlueService.countFields)
            == Contribution(counts, GlueService.countFields)
  {
    ContributionIgnores(counts, GlueService.countFields, "total_connections", c);
    ContributionIgnores(counts["total_connections" := c], GlueService.countFields, "total_triggers", t);
    ContributionIgnores(counts["total_connections" := c]["total_triggers" := t], GlueService.countFields,
                        "total_workflows", w);
  }

  datatype Summary = Summary(timestamp: string, servicesBackedUp: seq<string>, totalResources: int,
                             s3Keys: seq<string>)

  /** The summary after the services of `plan`, from `acc` on; the first failing exporter or count fails it. */
  function Collect(plan: seq<ServiceSpec>, exporter: string -> Result<Export>, initiative: string, t: DateTime,
                   acc: Summary): Result<Summary>
  {
    if plan == [] then Ok(acc)
    else
      match exporter(plan[0].folder)
        case Err(e) => Err(e)
        case Ok(ex) =>
          match Contribution(ex.counts, plan[0].countFields)
            case Err(e) => Err(e)
            case Ok(n) =>
              Collect(plan[1..], exporter, initiative, t,
                      Summary(acc.timestamp, acc.servicesBackedUp + [plan[0].name], acc.totalResources + n,
                              acc.s3Keys + [SnapshotKey(initiative, plan[0].folder, t)]))
  }

  /**
   * A successful run appends, per service of the plan and in its order,
   * the service's name and its snapshot key, and keeps the timestamp.
   */
  lemma {:induction false} CollectShape(plan: seq<ServiceSpec>, exporter: string -> Result<Export>,
                                        initiative: string, t: DateTime, acc: Summary)
    requires Collect(plan, exporter, initiative, t, acc).Ok?
    ensures var r := Collect(plan, exporter, initiative, t, acc).value;
            |r.servicesBackedUp| == |acc.servicesBackedUp| + |plan| && |r.s3Keys| == |acc.s3Keys| + |plan|
            && r.timestamp == acc.timestamp
            && r.servicesBackedUp[..|acc.servicesBackedUp|] == acc.servicesBackedUp
            && r.s3Keys[..|acc.s3Keys|] == acc.s3Keys
            && (forall i :: 0 <= i < |plan| ==> r.servicesBackedUp[|acc.servicesBackedUp| + i] == plan[i].name)
            && (forall i :: 0 <= i < |plan| ==> r.s3Keys[|acc.s3Keys| + i] == SnapshotKey(initiative, plan[i].folder, t))
    decreases |plan|
  {
    if plan != [] {
      var ex := exporter(plan[0].folder).value;
      var n := Contribution(ex.counts, plan[0].countFields).value;
      var next := Summary(acc.timestamp, acc.servicesBackedUp + [plan[0].name], acc.totalResources + n,
                          acc.s3Keys + [SnapshotKey(initiative, plan[0].folder, t)]);
      CollectShape(plan[1..], exporter, initiative, t, next);
      var r := Collect(plan, exporter, initiative, t, acc).value;
      assert r == Collect(plan[1..], exporter, initiative, t, next).value;
      assert r.servicesBackedUp[..|next.servicesBackedUp|] == next.servicesBackedUp;
      assert r.servicesBackedUp[..|acc.servicesBackedUp|] == next.servicesBackedUp[..|acc.servicesBackedUp|];
      assert r.s3Keys[..|next.s3Keys|] == next.s3Keys;
      assert r.s3Keys[..|acc.s3Keys|] == next.s3Keys[..|acc.s3Keys|];
      forall i | 0 <= i < |plan|
        ensures r.servicesBackedUp[|acc.servicesBackedUp| + i] == plan[i].name
        ensures r.s3Keys[|acc.s3Keys| + i] == SnapshotKey(initiative, plan[i].folder, t)
      {
        if i > 0 {
          assert plan[1..][i - 1] == plan[i];
        } else {
          assert r.servicesBackedUp[|acc.servicesBackedUp|] == r.servicesBackedUp[..|next.servicesBackedUp|][|acc.servicesBackedUp|];
          assert r.s3Keys[|acc.s3Keys|] == r.s3Keys[..|next.s3Keys|][|acc.s3Keys|];
        }
      }
    }
  }

  /** A plan starts with S3, and its folders are plain path segments other than `summary`. */
  predicate WellFormedPlan(plan: seq<ServiceSpec>)
  {
    |plan| >= 1 && plan[0] == S3Service
    && forall i :: 0 <= i < |plan| ==> plan[i].folder != "summary" && '/' !in plan[i].folder
  }

  lemma PlanWellFormed(flags: Flags)
    ensures WellFormedPlan(Plan(flags))
  {
    var plan := Plan(flags);
    forall i | 0 <= i < |plan|
      ensures plan[i].folder != "summary" && '/' !in plan[i].folder
    {
      assert plan[i] in Services;
      FolderPlain(plan[i]);
    }
  }

  lemma FolderPlain(x: ServiceSpec)
    requires x in Services
    ensures x.folder != "summary" && '/' !in x.folder
  {
    FolderNamesPlain();
    var k :| 0 <= k < |Services| && Services[k] == x;
    if k == 0 { assert x == S3Service; }
    else if k == 1 { assert x == GlueService; }
    else if k == 2 { assert x == AthenaService; }
    else if k == 3 { assert x == LambdaService; }
    else if k == 4 { assert x == IamService; }
    else if k == 5 { assert x == StepFunctionsService; }
    else if k == 6 { assert x == EventBridgeService; }
    else if k == 7 { assert x == DynamoDbService; }
    else { assert x == RdsService; }
  }

  lemma FolderNamesPlain()
    ensures '/' !in "s3_buckets" && '/' !in "glue" && '/' !in "athena"
    ensures '/' !in "lambda_functions" && '/' !in "iam_roles" && '/' !in "step_functions"
    ensures '/' !in "eventbridge_rules" && '/' !in "dynamodb_tables" && '/' !in "rds"
  {
    ShortFolderNamesPlain();
    LongFolderNamesPlain();
  }

  lemma ShortFolderNamesPlain()
    ensures '/' !in "s3_buckets" && '/' !in "glue" && '/' !in "athena"
    ensures '/' !in "iam_roles" && '/' !in "rds"
  {
  }

  lemma LongFolderNamesPlain()
    ensures '/' !in "lambda_functions" && '/' !in "step_functions"
    ensures '/' !in "eventbridge_rules" && '/' !in "dynamodb_tables"
  {
  }

  /**
   * A run's summary names the plan's services in order, S3 first, each
   * with its snapshot key, and the summary's own key is none of them.
   */
  lemma SummaryOfRun(plan: seq<ServiceSpec>, exporter: string -> Result<Export>, initiative: string, now: DateTime)
    requires '/' !in initiative && WellFormedPlan(plan)
    requires Collect(plan, exporter, initiative, now, Summary(IsoFormat(now), [], 0, [])).Ok?
    ensures var r := Collect(plan, exporter, initiative, now, Summary(IsoFormat(now), [], 0, [])).value;
            |r.servicesBackedUp| == |r.s3Keys| == |plan| && r.servicesBackedUp[0] == "S3"
            && r.timestamp == IsoFormat(now)
            && SnapshotKey(initiative, "summary", now) !in r.s3Keys
  {
    var acc := Summary(IsoFormat(now), [], 0, []);
    CollectShape(plan, exporter, initiative, now, acc);
    var r := Collect(plan, exporter, initiative, now, acc).value;
    assert r.servicesBackedUp[0] == plan[0].name;
    if SnapshotKey(initiative, "summary", now) in r.s3Keys {
      var i :| 0 <= i < |r.s3Keys| && r.s3Keys[i] == SnapshotKey(initiative, "summary", now);
      assert r.s3Keys[0 + i] == SnapshotKey(initiative, plan[i].folder, now);
      SnapshotKeyInjective(initiative, "summary", plan[i].folder, now, now);
    }
  }

  /** The objects after saving the snapshots of `plan` (each with its exporter's body). */
  function SaveAll(objects: map<Loc, string>, bucket: string, plan: seq<ServiceSpec>,
                   exporter: string -> Result<Export>, initiative: string, t: DateTime): map<Loc, string>
  {
    if plan == [] then objects
    else
      var before := SaveAll(objects, bucket, plan[..|plan| - 1], exporter, initiative, t);
      var s := plan[|plan| - 1];
      match exporter(s.folder)
        case Ok(ex) => before[Loc(bucket, SnapshotKey(initiative, s.folder, t)) := ex.body]
        case Err(_) => before
  }

  /** Saving one more service of the plan adds its snapshot, when its exporter answered. */
  lemma SaveAllStep(objects: map<Loc, string>, bucket: string, plan: seq<ServiceSpec>,
                    exporter: string -> Result<Export>, initiative: string, t: DateTime, i: nat)
    requires i < |plan|
    ensures SaveAll(objects, bucket, plan[..i + 1], exporter, initiative, t)
            == if exporter(plan[i].folder).Ok?
               then SaveAll(objects, bucket, plan[..i], exporter, initiative, t)
                      [Loc(bucket, SnapshotKey(initiative, plan[i].folder, t)) := exporter(plan[i].folder).value.body]
               else SaveAll(objects, bucket, plan[..i], exporter, initiative, t)
  {
    assert plan[..i + 1][..i] == plan[..i];
  }

  /** The summary with one more exported service: its name, its contribution and its snapshot key. */
  function Extend(acc: Summary, s: ServiceSpec, exporter: string -> Result<Export>, initiative: string,
                  t: DateTime): Summary
    requires Exports(s, exporter)
  {
    Summary(acc.timestamp, acc.servicesBackedUp + [s.name],
            acc.totalResources + Contribution(exporter(s.folder).value.counts, s.countFields).value,
            acc.s3Keys + [SnapshotKey(initiative, s.folder, t)])
  }

  /** The run from the `i`-th service on: that service's exporter and count, then the rest. */
  lemma CollectStep(plan: seq<ServiceSpec>, exporter: string -> Result<Export>, initiative: string, t: DateTime,
                    acc: Summary, i: nat)
    requires i < |plan|
    ensures !Exports(plan[i], exporter) ==> Collect(plan[i..], exporter, initiative, t, acc).Err?
    ensures Exports(plan[i], exporter) ==>
              Collect(plan[i..], exporter, initiative, t, acc)
              == Collect(plan[i + 1..], exporter, initiative, t, Extend(acc, plan[i], exporter, initiative, t))
  {
    assert plan[i..][1..] == plan[i + 1..];
  }

  /** A service whose exporter answers and whose count fields are all there. */
  predicate Exports(s: ServiceSpec, exporter: string -> Result<Export>)
  {
    exporter(s.folder).Ok? && Contribution(exporter(s.folder).value.counts, s.countFields).Ok?
  }

  /** The index of the first service of the plan that does not export; `|plan|` when all do. */
  function FirstFailure(plan: seq<ServiceSpec>, exporter: string -> Result<Export>): (k: nat)
    ensures k <= |plan|
    ensures forall i :: 0 <= i < k ==> Exports(plan[i], exporter)
    ensures k < |plan| ==> !Exports(plan[k], exporter)
  {
    if plan == [] || !Exports(plan[0], exporter) then 0
    else
      var k := 1 + FirstFailure(plan[1..], exporter);
      assert forall i :: 1 <= i < k ==> plan[i] == plan[1..][i - 1];
      k
  }

  /** The services a failed run gets through: up to and including the one that fails. */
  function Attempted(plan: seq<ServiceSpec>, exporter: string -> Result<Export>): seq<ServiceSpec>
  {
    var k := FirstFailure(plan, exporter);
    if k < |plan| then plan[..k + 1] else plan
  }

  /** A run that gets through `i` services and fails on the next attempted exactly those. */
  lemma AttemptedUpTo(plan: seq<ServiceSpec>, exporter: string -> Result<Export>, i: nat)
    requires i < |plan| && i <= FirstFailure(plan, exporter) && !Exports(plan[i], exporter)
    ensures Attempted(plan, exporter) == plan[..i + 1]
  {
  }

  /**
   * The run succeeds exactly when every service exports, and otherwise
   * fails with the error of the first service that does not.
   */
  lemma {:induction false} CollectFails(plan: seq<ServiceSpec>, exporter: string -> Result<Export>,
                                        initiative: string, t: DateTime, acc: Summary)
    ensures Collect(plan, exporter, initiative, t, acc).Ok? <==> FirstFailure(plan, exporter) == |plan|
    ensures FirstFailure(plan, exporter) < |plan| ==>
              var s := plan[FirstFailure(plan, exporter)];
              Collect(plan, exporter, initiative, t, acc)
              == Err(if exporter(s.folder).Err? then exporter(s.folder).error
                     else Contribution(exporter(s.folder).value.counts, s.countFields).error)
    decreases |plan|
  {
    if plan != [] && Exports(plan[0], exporter) {
      var n := Contribution(exporter(plan[0].folder).value.counts, plan[0].countFields).value;
      CollectFails(plan[1..], exporter, initiative, t,
                   Summary(acc.timestamp, acc.servicesBackedUp + [plan[0].name], acc.totalResources + n,
                           acc.s3Keys + [SnapshotKey(initiative, plan[0].folder, t)]));
    }
  }

  datatype Response = Response(statusCode: int, summary: Option<Summary>)

  /** One step of the handler: exporter, count, save, and append to the summary. */
  method SaveService(store: Store, bucket: string, s: ServiceSpec, exporter: string -> Result<Export>,
                     initiative: string, t: DateTime, acc: Summary) returns (r: Result<Summary>)
    modifies store
    ensures r.Ok? ==> Exports(s, exporter) && bucket in store.reachable
                      && r.value == Extend(acc, s, exporter, initiative, t)
    ensures store.objects == if exporter(s.folder).Ok? && bucket in store.reachable
                             then old(store.objects)[Loc(bucket, SnapshotKey(initiative, s.folder, t))
                                                     := exporter(s.folder).value.body]
                             else old(store.objects)
    ensures bucket in store.reachable && Exports(s, exporter) ==> r.Ok?
  {
    var ex := exporter(s.folder);
    if ex.Err? {
      return Err(ex.error);
    }
    var key := SnapshotKey(initiative, s.folder, t);
    var put := store.Put(Loc(bucket, key), ex.value.body);
    if put.Err? {
      return Err(put.error);
    }
    var n := Contribution(ex.value.counts, s.countFields);
    if n.Err? {
      // the snapshot stays saved when its counter is missing
      return Err(n.error);
    }
    r := Ok(Summary(acc.timestamp, acc.servicesBackedUp + [s.name], acc.totalResources + n.value,
                    acc.s3Keys + [key]));
  }

  /**
   * `lambda_handler`. Status 200 exactly when the bucket is usable and
   * every exporter succeeds: the summary then lists the services of the plan
   * in order with their snapshot keys, and is itself saved under service
   * `summary` (see `SummaryOfRun`). Otherwise status 500.
   */
  method Handle(flags: Flags, initiative: string, bucket: string, store: Store,
                exporter: string -> Result<Export>, encode: Summary -> string, now: DateTime) returns (resp: Response)
    modifies store
    ensures resp.statusCode == 200 || resp.statusCode == 500
    ensures var spec := Collect(Plan(flags), exporter, initiative, now, Summary(IsoFormat(now), [], 0, []));
            (resp.statusCode == 200 <==> spec.Ok? && bucket in store.reachable)
            && (resp.statusCode == 200 ==>
                  resp.summary == Some(spec.value)
                  && store.objects == SaveAll(old(store.objects), bucket, Plan(flags), exporter, initiative, now)
                                        [Loc(bucket, SnapshotKey(initiative, "summary", now)) := encode(spec.value)])
    ensures resp.statusCode == 500 ==>
              resp.summary.None?
              && store.objects == if bucket in store.reachable
                                  then SaveAll(old(store.objects), bucket, Attempted(Plan(flags), exporter),
                                               exporter, initiative, now)
                                  else old(store.objects)
  {
    PlanWellFormed(flags);
    resp := RunPlan(Plan(flags), initiative, bucket, store, exporter, encode, now);
  }

  /** The handler's steps for a given plan. */
  method RunPlan(plan: seq<ServiceSpec>, initiative: string, bucket: string, store: Store,
                 exporter: string -> Result<Export>, encode: Summary -> string, now: DateTime) returns (resp: Response)
    requires |plan| >= 1
    modifies store
    ensures resp.statusCode == 200 || resp.statusCode == 500
    ensures var spec := Collect(plan, exporter, initiative, now, Summary(IsoFormat(now), [], 0, []));
            (resp.statusCode == 200 <==> spec.Ok? && bucket in store.reachable)
            && (resp.statusCode == 200 ==>
                  resp.summary == Some(spec.value)
                  && store.objects == SaveAll(old(store.objects), bucket, plan, exporter, initiative, now)
                                        [Loc(bucket, SnapshotKey(initiative, "summary", now)) := encode(spec.value)])
    ensures resp.statusCode == 500 ==>
              resp.summary.None?
              && store.objects == if bucket in store.reachable
                                  then SaveAll(old(store.objects), bucket, Attempted(plan, exporter),
                                               exporter, initiative, now)
                                  else old(store.objects)
  {
    var summary := Summary(IsoFormat(now), [], 0, []);
    ghost var spec := Collect(plan, exporter, initiative, now, summary);
    var i := 0;
    while i < |plan|
      invariant 0 <= i <= |plan|
      invariant Collect(plan[i..], exporter, initiative, now, summary) == spec
      invariant store.objects == SaveAll(old(store.objects), bucket, plan[..i], exporter, initiative, now)
      invariant i > 0 ==> bucket in store.reachable
      invariant i <= FirstFailure(plan, exporter)
    {
      var step := SaveNext(plan, i, initiative, bucket, store, exporter, now, summary, old(store.objects));
      if step.Err? {
        return Response(500, None);
      }
      summary := step.value;
      i := i + 1;
    }
    assert plan[..i] == plan;
    var put := store.Put(Loc(bucket, SnapshotKey(initiative, "summary", now)), encode(summary));
    resp := Response(200, Some(summary));
  }

  /**
   * One pass of the handler's loop: the `i`-th service is saved and added
   * to the summary. A failure leaves the snapshots of the services
   * attempted so far, or nothing at all in an unusable bucket.
   */
  method SaveNext(plan: seq<ServiceSpec>, i: nat, initiative: string, bucket: string, store: Store,
                  exporter: string -> Result<Export>, now: DateTime, summary: Summary,
                  ghost objects: map<Loc, string>) returns (next: Result<Summary>)
    requires i < |plan| && i <= FirstFailure(plan, exporter)
    requires store.objects == SaveAll(objects, bucket, plan[..i], exporter, initiative, now)
    requires i > 0 ==> bucket in store.reachable
    modifies store
    ensures next.Ok? ==>
              bucket in store.reachable && i + 1 <= FirstFailure(plan, exporter)
              && store.objects == SaveAll(objects, bucket, plan[..i + 1], exporter, initiative, now)
              && Collect(plan[i + 1..], exporter, initiative, now, next.value)
                 == Collect(plan[i..], exporter, initiative, now, summary)
    ensures next.Err? ==>
              (bucket !in store.reachable || Collect(plan[i..], exporter, initiative, now, summary).Err?)
              && store.objects == if bucket in store.reachable
                                  then SaveAll(objects, bucket, Attempted(plan, exporter), exporter, initiative, now)
                                  else objects
  {
    SaveAllStep(objects, bucket, plan, exporter, initiative, now, i);
    next := SaveService(store, bucket, plan[i], exporter, initiative, now, summary);
    if next.Ok? {
      CollectStep(plan, exporter, initiative, now, summary, i);
    } else if bucket in store.reachable {
      CollectStep(plan, exporter, initiative, now, summary, i);
      AttemptedUpTo(plan, exporter, i);
    } else {
      assert plan[..i] == [];
    }
  }
}
