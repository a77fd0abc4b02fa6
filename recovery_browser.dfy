/**
 * The recovery points browser: an API that, for one AWS account, lists the
 * S3 batch manifests in the central backup buckets and the AWS Backup
 * recovery points of every vault. Requests must carry the API token; the
 * account is reached through the current session or an assumed role.
 */
module RecoveryBrowser {
  import opened Base
  import opened Strings
  import opened Stamps
  import IncrementalBackup

  /** `ASSUME_ROLE_NAME`'s value when the variable is unset. */
  const DefaultRoleName := "CrossAccountBackupReadRole"
  /** `CENTRAL_BUCKET_PATTERN`'s value when the variable is unset. */
  const DefaultBucketPattern := "central-bck"

  /** The settings read from the environment. */
  datatype Settings = Settings(roleName: string, bucketPattern: string, apiToken: Option<string>)

  // ---------------------------------------------------------------------
  // auth

  const Unauthorized := HttpError(401, "Unauthorized")

  /** `auth`: the `x-api-token` header must equal a configured, non-empty token. */
  function Auth(apiToken: Option<string>, header: Option<string>): (r: Result<()>)
    ensures r.Ok? <==> Truthy(apiToken) && header == apiToken
    ensures r.Err? ==> r.error == Unauthorized
  {
    if !Truthy(apiToken) || header != apiToken then Err(Unauthorized) else Ok(())
  }

  /** Without a configured token every request is refused, whatever header it carries. */
  lemma NoTokenRefusesAll(apiToken: Option<string>, header: Option<string>)
    requires !Truthy(apiToken)
    ensures Auth(apiToken, header) == Err(Unauthorized)
  {
  }

  // ---------------------------------------------------------------------
  // assume

  datatype Session = CurrentSession | AssumedSession(roleArn: string)

  function RoleArn(accountId: string, roleName: string): string
  {
    "arn:aws:iam::" + accountId + ":role/" + roleName
  }

  /** Different accounts are reached through different roles. */
  lemma RoleArnInjective(a: string, b: string, roleName: string)
    requires RoleArn(a, roleName) == RoleArn(b, roleName)
    ensures a == b
  {
    assert RoleArn(a, roleName) == "arn:aws:iam::" + a + (":role/" + roleName);
    assert RoleArn(b, roleName) == "arn:aws:iam::" + b + (":role/" + roleName);
    InfixInjective("arn:aws:iam::", a, b, ":role/" + roleName);
  }

  lemma InfixInjective(p: string, a: string, b: string, t: string)
    requires p + a + t == p + b + t
    ensures a == b
  {
    assert |a| == |b|;
    assert a == (p + a + t)[|p|..|p| + |a|];
    assert b == (p + b + t)[|p|..|p| + |b|];
  }

  /** The caller's own account, as `get_caller_identity` answers it. */
  predicate SameAccount(caller: Result<Option<string>>, accountId: string)
  {
    caller.Ok? && Truthy(caller.value) && caller.value.value == accountId
  }

  /**
   * `assume`: the current session when no role name is set or the account
   * is the caller's own (a failing identity call is ignored); otherwise the
   * session of the account's role, or the error assuming it raises.
   */
  function Assume(roleName: string, accountId: string, caller: Result<Option<string>>,
                  assumeError: Option<Error>): (r: Result<Session>)
    ensures r == Ok(CurrentSession) <==> roleName == "" || SameAccount(caller, accountId)
    ensures r.Err? <==> roleName != "" && !SameAccount(caller, accountId) && assumeError.Some?
    ensures r.Err? ==> r.error == assumeError.value
    ensures r.Ok? && r.value.AssumedSession? ==> r.value.roleArn == RoleArn(accountId, roleName)
  {
    if roleName == "" then Ok(CurrentSession)
    else if SameAccount(caller, accountId) then Ok(CurrentSession)
    else if assumeError.Some? then Err(assumeError.value)
    else Ok(AssumedSession(RoleArn(accountId, roleName)))
  }

  // ---------------------------------------------------------------------
  // find_central_buckets

  /** `find_central_buckets`: the names present, non-empty and containing the pattern, in listing order. */
  function CentralBuckets(names: seq<Option<string>>, pattern: string): (r: seq<string>)
    ensures |r| <= |names|
    ensures forall i :: 0 <= i < |r| ==> r[i] != "" && Contains(r[i], pattern)
  {
    if names == [] then []
    else
      var rest := CentralBuckets(names[..|names| - 1], pattern);
      var n := names[|names| - 1];
      if Truthy(n) && Contains(n.value, pattern) then rest + [n.value] else rest
  }

  /** The central buckets are exactly the listed non-empty names that contain the pattern. */
  lemma {:induction false} CentralBucketsExact(names: seq<Option<string>>, pattern: string)
    ensures forall x :: x in CentralBuckets(names, pattern) <==>
              x != "" && Contains(x, pattern) && Some(x) in names
  {
    if names != [] {
      var init := names[..|names| - 1];
      CentralBucketsExact(init, pattern);
      assert names == init + [names[|names| - 1]];
    }
  }

  // ---------------------------------------------------------------------
  // key=value path fields

  /** A string with the separator splits into at least two pieces. */
  lemma {:induction false} SplitAtSeparator(s: string, c: char)
    requires c in s
    ensures |Split(s, c)| >= 2
    decreases |s|
  {
    if s[0] != c {
      assert c in s[1..];
      SplitAtSeparator(s[1..], c);
    }
  }

  /** The dict comprehension over path segments: each segment with `=` maps its first piece to its second. */
  function FieldsOf(segments: seq<string>): map<string, string>
  {
    if segments == [] then map[]
    else
      var fields := FieldsOf(segments[..|segments| - 1]);
      var p := segments[|segments| - 1];
      if '=' in p then
        SplitAtSeparator(p, '=');
        fields[Split(p, '=')[0] := Split(p, '=')[1]]
      else fields
  }

  /** The fields of an object key's path segments. */
  function PathFields(key: string): map<string, string>
  {
    FieldsOf(Split(key, '/'))
  }

  /** A segment `name=value` gives `name` and `value`, and so does any segment that continues with another `=`. */
  lemma FieldOfSegment(name: string, value: string, tail: string)
    requires '=' !in name && '=' !in value
    ensures Split(name + "=" + value, '=') == [name, value]
    ensures var pieces := Split(name + "=" + value + "=" + tail, '=');
            |pieces| >= 2 && pieces[0] == name && pieces[1] == value
  {
    SplitNoSep(name, '=');
    SplitNoSep(value, '=');
    SplitAround(name, value, '=');
    assert name + "=" + value == name + ['='] + value;
    SplitAround(name, value + "=" + tail, '=');
    SplitAround(value, tail, '=');
    assert name + "=" + value + "=" + tail == name + ['='] + (value + ['='] + tail);
  }

  /** The keys of the fields are the names of the segments that hold `=`. */
  lemma {:induction false} FieldsOfKeys(segments: seq<string>)
    ensures forall k :: k in FieldsOf(segments) <==>
              exists i :: 0 <= i < |segments| && '=' in segments[i] && Split(segments[i], '=')[0] == k
  {
    if segments != [] {
      var init := segments[..|segments| - 1];
      FieldsOfKeys(init);
      forall k ensures k in FieldsOf(segments) <==>
                       exists i :: 0 <= i < |segments| && '=' in segments[i] && Split(segments[i], '=')[0] == k
      {
        if exists i :: 0 <= i < |init| && '=' in init[i] && Split(init[i], '=')[0] == k {
          var i :| 0 <= i < |init| && '=' in init[i] && Split(init[i], '=')[0] == k;
          assert segments[i] == init[i];
        }
        if exists i :: 0 <= i < |segments| && '=' in segments[i] && Split(segments[i], '=')[0] == k {
          var i :| 0 <= i < |segments| && '=' in segments[i] && Split(segments[i], '=')[0] == k;
          if i < |init| { assert init[i] == segments[i]; }
        }
      }
    }
  }

  /** The last segment named `name` decides its value. */
  lemma {:induction false} FieldsOfLast(segments: seq<string>, i: nat, name: string, value: string)
    requires i < |segments| && segments[i] == name + "=" + value && '=' !in name && '=' !in value
    requires forall j :: i < j < |segments| ==> '=' !in segments[j] || Split(segments[j], '=')[0] != name
    ensures name in FieldsOf(segments) && FieldsOf(segments)[name] == value
  {
    var init := segments[..|segments| - 1];
    var p := segments[|segments| - 1];
    FieldOfSegment(name, value, "");
    if i < |segments| - 1 {
      FieldsOfLast(init, i, name, value);
    }
  }

  /** A segment without `=` adds no field. */
  lemma FieldsOfPlain(segments: seq<string>, p: string)
    requires '=' !in p
    ensures FieldsOf(segments + [p]) == FieldsOf(segments)
  {
    assert (segments + [p])[..|segments|] == segments;
  }

  /** A segment `name=value` sets the field `name` to `value`. */
  lemma FieldsOfField(segments: seq<string>, name: string, value: string)
    requires '=' !in name && '=' !in value
    ensures FieldsOf(segments + [name + "=" + value]) == FieldsOf(segments)[name := value]
  {
    assert (segments + [name + "=" + value])[..|segments|] == segments;
    FieldOfSegment(name, value, "");
  }

  /** The path segments of an incremental manifest key. */
  function ManifestSegments(criticality: string, initiative: string, bucket: string,
                            window: string, runId: string): seq<string>
  {
    ["manifests", "criticality=" + criticality, "backup_type=incremental", "initiative=" + initiative,
     "bucket=" + bucket, "window=" + window, "manifest-" + runId + ".csv"]
  }

  lemma ManifestKeySegments(criticality: string, initiative: string, bucket: string,
                            window: string, runId: string)
    requires forall x :: x in [criticality, initiative, bucket, window, runId] ==> '/' !in x
    ensures Split(IncrementalBackup.ManifestKey(criticality, initiative, bucket, window, runId), '/')
            == ManifestSegments(criticality, initiative, bucket, window, runId)
  {
    var segments := ManifestSegments(criticality, initiative, bucket, window, runId);
    assert forall i :: 0 <= i < |segments| ==> '/' !in segments[i];
    SplitJoin(segments, '/');
  }

  /** Five `name=value` segments between two plain ones give the five fields. */
  lemma FiveFields(first: string, last: string, n1: string, v1: string, n2: string, v2: string,
                   n3: string, v3: string, n4: string, v4: string, n5: string, v5: string)
    requires '=' !in first && '=' !in last
    requires forall x :: x in [n1, v1, n2, v2, n3, v3, n4, v4, n5, v5] ==> '=' !in x
    ensures FieldsOf([first, n1 + "=" + v1, n2 + "=" + v2, n3 + "=" + v3, n4 + "=" + v4, n5 + "=" + v5, last])
            == map[][n1 := v1][n2 := v2][n3 := v3][n4 := v4][n5 := v5]
  {
    var s1 := [first];
    var s2 := s1 + [n1 + "=" + v1];
    var s3 := s2 + [n2 + "=" + v2];
    var s4 := s3 + [n3 + "=" + v3];
    var s5 := s4 + [n4 + "=" + v4];
    var s6 := s5 + [n5 + "=" + v5];
    assert s6 + [last] == [first, n1 + "=" + v1, n2 + "=" + v2, n3 + "=" + v3, n4 + "=" + v4, n5 + "=" + v5, last];
    FieldsOfPlain([], first);
    assert [] + [first] == s1;
    FieldsOfField(s1, n1, v1);
    FieldsOfField(s2, n2, v2);
    FieldsOfField(s3, n3, v3);
    FieldsOfField(s4, n4, v4);
    FieldsOfField(s5, n5, v5);
    FieldsOfPlain(s6, last);
  }

  lemma ManifestSegmentsFields(criticality: string, initiative: string, bucket: string,
                               window: string, runId: string)
    requires forall x :: x in [criticality, initiative, bucket, window, runId] ==> '=' !in x
    ensures FieldsOf(ManifestSegments(criticality, initiative, bucket, window, runId))
            == map["criticality" := criticality, "backup_type" := "incremental", "initiative" := initiative,
                   "bucket" := bucket, "window" := window]
  {
    ManifestSegmentsShape(criticality, initiative, bucket, window, runId);
    FiveFields("manifests", "manifest-" + runId + ".csv", "criticality", criticality, "backup_type", "incremental",
               "initiative", initiative, "bucket", bucket, "window", window);
  }

  lemma ManifestSegmentsShape(criticality: string, initiative: string, bucket: string,
                              window: string, runId: string)
    requires '=' !in runId
    ensures ManifestSegments(criticality, initiative, bucket, window, runId)
            == ["manifests", "criticality" + "=" + criticality, "backup_type" + "=" + "incremental",
                "initiative" + "=" + initiative, "bucket" + "=" + bucket, "window" + "=" + window,
                "manifest-" + runId + ".csv"]
    ensures '=' !in "manifests" && '=' !in "manifest-" + runId + ".csv"
  {
    assert "criticality=" == "criticality" + "=" && "backup_type=incremental" == "backup_type" + "=" + "incremental";
    assert "initiative=" == "initiative" + "=" && "bucket=" == "bucket" + "=" && "window=" == "window" + "=";
  }

  /**
   * The browser reads back the fields of the manifests the incremental
   * backup writes: criticality, backup type, initiative, source bucket and
   * window.
   */
  lemma IncrementalManifestFields(criticality: string, initiative: string, bucket: string,
                                  window: string, runId: string)
    requires forall x :: x in [criticality, initiative, bucket, window, runId] ==> '/' !in x && '=' !in x
    ensures PathFields(IncrementalBackup.ManifestKey(criticality, initiative, bucket, window, runId))
            == map["criticality" := criticality, "backup_type" := "incremental", "initiative" := initiative,
                   "bucket" := bucket, "window" := window]
  {
    ManifestKeySegments(criticality, initiative, bucket, window, runId);
    ManifestSegmentsFields(criticality, initiative, bucket, window, runId);
  }

  lemma JoinCons(head: string, rest: seq<string>, c: char)
    requires |rest| >= 1
    ensures Join([head] + rest, c) == head + [c] + Join(rest, c)
  {
    assert ([head] + rest)[1..] == rest;
  }

  /** A join ends with whatever its last piece ends with. */
  lemma {:induction false} JoinEndsWith(parts: seq<string>, c: char, suffix: string)
    requires |parts| >= 1 && EndsWith(parts[|parts| - 1], suffix)
    ensures EndsWith(Join(parts, c), suffix)
    decreases |parts|
  {
    if |parts| > 1 {
      JoinEndsWith(parts[1..], c, suffix);
      var x, y := parts[0] + [c], Join(parts[1..], c);
      assert (x + y)[|x + y| - |suffix|..] == y[|y| - |suffix|..];
    }
  }

  /** A join of three or more pieces starts with the first two, each followed by the separator. */
  lemma JoinStartsWithTwo(parts: seq<string>, c: char)
    requires |parts| >= 3
    ensures StartsWith(Join(parts, c), parts[0] + [c] + parts[1] + [c])
  {
    var x := Join(parts[2..], c);
    var y := Join(parts[1..], c);
    assert y == parts[1] + [c] + x by {
      JoinCons(parts[1], parts[2..], c);
      assert parts[1..] == [parts[1]] + parts[2..];
    }
    assert Join(parts, c) == parts[0] + [c] + y by {
      JoinCons(parts[0], parts[1..], c);
      assert parts == [parts[0]] + parts[1..];
    }
    var head := parts[0] + [c] + parts[1] + [c];
    assert Join(parts, c) == head + x;
  }

  /** A manifest of the incremental backup sits under its criticality's prefix and ends with `.csv`. */
  lemma IncrementalManifestListed(criticality: string, initiative: string, bucket: string,
                                  window: string, runId: string)
    ensures var key := IncrementalBackup.ManifestKey(criticality, initiative, bucket, window, runId);
            EndsWith(key, ".csv") && StartsWith(key, "manifests/criticality=" + criticality + "/")
  {
    var segments := ManifestSegments(criticality, initiative, bucket, window, runId);
    var last := "manifest-" + runId + ".csv";
    assert last[|last| - 4..] == ".csv";
    JoinStartsWithTwo(segments, '/');
    JoinEndsWith(segments, '/', ".csv");
    assert "manifests" + ['/'] + ("criticality=" + criticality) + ['/'] == "manifests/criticality=" + criticality + "/";
  }

  // ---------------------------------------------------------------------
  // list_s3_recovery_points

  /** One listed object: its key and its last-modified time, either possibly absent. */
  datatype S3Object = S3Object(key: Option<string>, lastModified: Option<DateTime>)

  datatype S3Point = S3Point(bucket: string, key: string, criticality: Option<string>,
                             backupType: Option<string>, initiative: Option<string>,
                             sourceBucket: Option<string>, window: Option<string>,
                             lastModified: Option<string>)

  const ManifestPrefixes := ["manifests/criticality=Critico/", "manifests/criticality=MenosCritico/",
                             "manifests/criticality=NoCritico/"]

  function Lookup(fields: map<string, string>, name: string): Option<string>
  {
    if name in fields then Some(fields[name]) else None
  }

  function IsoOf(t: Option<DateTime>): Option<string>
  {
    if t.Some? then Some(IsoFormat(t.value)) else None
  }

  function KeyOf(o: S3Object): string
  {
    OrElse(o.key, "")
  }

  function PointOf(bucket: string, o: S3Object): (p: S3Point)
    ensures p.bucket == bucket && p.key == KeyOf(o)
  {
    var fields := PathFields(KeyOf(o));
    S3Point(bucket, KeyOf(o), Lookup(fields, "criticality"), Lookup(fields, "backup_type"),
            Lookup(fields, "initiative"), Lookup(fields, "bucket"), Lookup(fields, "window"),
            IsoOf(o.lastModified))
  }

  /** The points of one page: its `.csv` objects, in order. */
  function PagePoints(bucket: string, page: seq<S3Object>): seq<S3Point>
  {
    if page == [] then []
    else
      var rest := PagePoints(bucket, page[..|page| - 1]);
      var o := page[|page| - 1];
      if EndsWith(KeyOf(o), ".csv") then rest + [PointOf(bucket, o)] else rest
  }

  /** A page's points are exactly the points of its `.csv` objects. */
  lemma {:induction false} PagePointsExact(bucket: string, page: seq<S3Object>)
    ensures forall p :: p in PagePoints(bucket, page) <==>
              exists o :: o in page && EndsWith(KeyOf(o), ".csv") && p == PointOf(bucket, o)
  {
    if page != [] {
      var init := page[..|page| - 1];
      PagePointsExact(bucket, init);
      assert page == init + [page[|page| - 1]];
    }
  }

  function PagesPoints(bucket: string, pages: seq<seq<S3Object>>): seq<S3Point>
  {
    if pages == [] then []
    else PagesPoints(bucket, pages[..|pages| - 1]) + PagePoints(bucket, pages[|pages| - 1])
  }

  /** The points of every prefix in turn; `listing(bucket, prefix)` gives the pages of a listing. */
  function PrefixesPoints(bucket: string, prefixes: seq<string>,
                          listing: (string, string) -> seq<seq<S3Object>>): seq<S3Point>
  {
    if prefixes == [] then []
    else PrefixesPoints(bucket, prefixes[..|prefixes| - 1], listing)
         + PagesPoints(bucket, listing(bucket, prefixes[|prefixes| - 1]))
  }

  /** Every point is a `.csv` object of the bucket, listed on some page under some prefix. */
  predicate FromListing(p: S3Point, bucket: string, prefixes: seq<string>,
                        listing: (string, string) -> seq<seq<S3Object>>)
  {
    exists i, j, o :: 0 <= i < |prefixes| && 0 <= j < |listing(bucket, prefixes[i])|
                      && o in listing(bucket, prefixes[i])[j]
                      && EndsWith(KeyOf(o), ".csv") && p == PointOf(bucket, o)
  }

  lemma {:induction false} PagesPointsFrom(bucket: string, pages: seq<seq<S3Object>>, p: S3Point)
    returns (j: nat, o: S3Object)
    requires p in PagesPoints(bucket, pages)
    ensures j < |pages| && o in pages[j] && EndsWith(KeyOf(o), ".csv") && p == PointOf(bucket, o)
  {
    var init := pages[..|pages| - 1];
    if p in PagesPoints(bucket, init) {
      j, o := PagesPointsFrom(bucket, init, p);
    } else {
      PagePointsExact(bucket, pages[|pages| - 1]);
      j := |pages| - 1;
      o :| o in pages[j] && EndsWith(KeyOf(o), ".csv") && p == PointOf(bucket, o);
    }
  }

  /** Every S3 recovery point is a `.csv` object listed under one of the prefixes, described by its key. */
  lemma {:induction false} PrefixesPointsFrom(bucket: string, prefixes: seq<string>,
                                              listing: (string, string) -> seq<seq<S3Object>>)
    ensures forall p :: p in PrefixesPoints(bucket, prefixes, listing) ==> FromListing(p, bucket, prefixes, listing)
  {
    if prefixes != [] {
      var init := prefixes[..|prefixes| - 1];
      var last := prefixes[|prefixes| - 1];
      PrefixesPointsFrom(bucket, init, listing);
      forall p | p in PrefixesPoints(bucket, prefixes, listing) ensures FromListing(p, bucket, prefixes, listing) {
        if p in PrefixesPoints(bucket, init, listing) {
          var i, j, o :| 0 <= i < |init| && 0 <= j < |listing(bucket, init[i])|
                         && o in listing(bucket, init[i])[j]
                         && EndsWith(KeyOf(o), ".csv") && p == PointOf(bucket, o);
          assert prefixes[i] == init[i];
        } else {
          var j, o := PagesPointsFrom(bucket, listing(bucket, last), p);
          assert prefixes[|prefixes| - 1] == last;
        }
      }
    }
  }

  /** The points of one page appended to the list, as the innermost loop does. */
  method AppendPage(bucket: string, page: seq<S3Object>, items: seq<S3Point>) returns (r: seq<S3Point>)
    ensures r == items + PagePoints(bucket, page)
  {
    r := items;
    var k := 0;
    while k < |page|
      invariant 0 <= k <= |page|
      invariant r == items + PagePoints(bucket, page[..k])
    {
      assert page[..k + 1][..k] == page[..k];
      var o := page[k];
      var key := OrElse(o.key, "");
      if EndsWith(key, ".csv") {
        r := r + [PointOf(bucket, o)];
      }
      k := k + 1;
    }
    assert page[..k] == page;
  }

  /** `list_s3_recovery_points`: every `.csv` manifest under the three criticality prefixes, prefix by prefix, page by page. */
  method ListS3RecoveryPoints(bucket: string, listing: (string, string) -> seq<seq<S3Object>>)
    returns (items: seq<S3Point>)
    ensures items == PrefixesPoints(bucket, ManifestPrefixes, listing)
  {
    var prefixes := ManifestPrefixes;
    items := [];
    var i := 0;
    while i < |prefixes|
      invariant 0 <= i <= |prefixes|
      invariant items == PrefixesPoints(bucket, prefixes[..i], listing)
    {
      assert prefixes[..i + 1][..i] == prefixes[..i];
      var pages := listing(bucket, prefixes[i]);
      var before := items;
      var j := 0;
      while j < |pages|
        invariant 0 <= j <= |pages|
        invariant items == before + PagesPoints(bucket, pages[..j])
      {
        assert pages[..j + 1][..j] == pages[..j];
        items := AppendPage(bucket, pages[j], items);
        j := j + 1;
      }
      assert pages[..j] == pages;
      i := i + 1;
    }
    assert prefixes[..i] == prefixes;
  }

  // ---------------------------------------------------------------------
  // list_backup_recovery_points

  /** One recovery point as AWS Backup lists it; any attribute may be absent. */
  datatype RecoveryPoint = RecoveryPoint(arn: Option<string>, resourceType: Option<string>,
                                         creation: Option<DateTime>, completion: Option<DateTime>,
                                         size: Option<int>, planId: Option<string>)

  datatype BackupPoint = BackupPoint(vault: Option<string>, arn: Option<string>, resourceType: Option<string>,
                                     creationDate: Option<string>, completionDate: Option<string>,
                                     size: Option<int>, planId: Option<string>)

  function BackupPointOf(vault: Option<string>, rp: RecoveryPoint): (p: BackupPoint)
    ensures p.vault == vault && p.arn == rp.arn
  {
    BackupPoint(vault, rp.arn, rp.resourceType, IsoOf(rp.creation), IsoOf(rp.completion), rp.size, rp.planId)
  }

  function VaultPagePoints(vault: Option<string>, page: seq<RecoveryPoint>): (r: seq<BackupPoint>)
    ensures |r| == |page|
    ensures forall k :: 0 <= k < |r| ==> r[k] == BackupPointOf(vault, page[k])
  {
    if page == [] then []
    else VaultPagePoints(vault, page[..|page| - 1]) + [BackupPointOf(vault, page[|page| - 1])]
  }

  function VaultPoints(vault: Option<string>, pages: seq<seq<RecoveryPoint>>): seq<BackupPoint>
  {
    if pages == [] then []
    else VaultPoints(vault, pages[..|pages| - 1]) + VaultPagePoints(vault, pages[|pages| - 1])
  }

  /** The points of every vault in turn; `listing(vault)` gives the pages of the vault's recovery points. */
  function BackupPoints(vaults: seq<Option<string>>, listing: Option<string> -> seq<seq<RecoveryPoint>>)
    : seq<BackupPoint>
  {
    if vaults == [] then []
    else BackupPoints(vaults[..|vaults| - 1], listing) + VaultPoints(vaults[|vaults| - 1], listing(vaults[|vaults| - 1]))
  }

  /** Every recovery point of a vault is reported once, under its vault. */
  lemma {:induction false} VaultPointsAll(vault: Option<string>, pages: seq<seq<RecoveryPoint>>)
    ensures forall p :: p in VaultPoints(vault, pages) ==> p.vault == vault
    ensures forall j, rp :: 0 <= j < |pages| && rp in pages[j] ==> BackupPointOf(vault, rp) in VaultPoints(vault, pages)
  {
    if pages != [] {
      var init := pages[..|pages| - 1];
      var last := pages[|pages| - 1];
      VaultPointsAll(vault, init);
      forall j, rp | 0 <= j < |pages| && rp in pages[j] ensures BackupPointOf(vault, rp) in VaultPoints(vault, pages) {
        if j < |init| {
          assert pages[j] == init[j];
        } else {
          var k :| 0 <= k < |last| && last[k] == rp;
          assert VaultPagePoints(vault, last)[k] == BackupPointOf(vault, rp);
        }
      }
    }
  }

  /** Every reported point belongs to one of the listed vaults. */
  lemma {:induction false} BackupPointsVaults(vaults: seq<Option<string>>, listing: Option<string> -> seq<seq<RecoveryPoint>>)
    ensures forall p :: p in BackupPoints(vaults, listing) ==> p.vault in vaults
  {
    if vaults != [] {
      var init := vaults[..|vaults| - 1];
      BackupPointsVaults(init, listing);
      VaultPointsAll(vaults[|vaults| - 1], listing(vaults[|vaults| - 1]));
      assert vaults == init + [vaults[|vaults| - 1]];
    }
  }

  /** The points of one page of a vault appended to the list, as the innermost loop does. */
  method AppendVaultPage(vault: Option<string>, page: seq<RecoveryPoint>, points: seq<BackupPoint>)
    returns (r: seq<BackupPoint>)
    ensures r == points + VaultPagePoints(vault, page)
  {
    r := points;
    var k := 0;
    while k < |page|
      invariant 0 <= k <= |page|
      invariant r == points + VaultPagePoints(vault, page[..k])
    {
      assert page[..k + 1][..k] == page[..k];
      r := r + [BackupPointOf(vault, page[k])];
      k := k + 1;
    }
    assert page[..k] == page;
  }

  /** `list_backup_recovery_points`: every recovery point of every vault, vault by vault, page by page. */
  method ListBackupRecoveryPoints(vaults: seq<Option<string>>, listing: Option<string> -> seq<seq<RecoveryPoint>>)
    returns (points: seq<BackupPoint>)
    ensures points == BackupPoints(vaults, listing)
  {
    points := [];
    var v := 0;
    while v < |vaults|
      invariant 0 <= v <= |vaults|
      invariant points == BackupPoints(vaults[..v], listing)
    {
      assert vaults[..v + 1][..v] == vaults[..v];
      var vault := vaults[v];
      points := AppendVault(vault, listing(vault), points);
      v := v + 1;
    }
    assert vaults[..v] == vaults;
  }

  /** The inner loop of `list_backup_recovery_points`: one vault's pages in turn. */
  method AppendVault(vault: Option<string>, pages: seq<seq<RecoveryPoint>>, points: seq<BackupPoint>)
    returns (r: seq<BackupPoint>)
    ensures r == points + VaultPoints(vault, pages)
  {
    r := points;
    var j := 0;
    while j < |pages|
      invariant 0 <= j <= |pages|
      invariant r == points + VaultPoints(vault, pages[..j])
    {
      assert pages[..j + 1][..j] == pages[..j];
      r := AppendVaultPage(vault, pages[j], r);
      j := j + 1;
    }
    assert pages[..j] == pages;
  }

  // ---------------------------------------------------------------------
  // recovery_points

  /** The answer of `GET /recovery-points/{account_id}`. */
  datatype Response = Response(accountId: string, s3: seq<S3Point>, awsBackup: seq<BackupPoint>)

  /** The S3 points of every central bucket in turn. */
  function BucketsPoints(buckets: seq<string>, listing: (string, string) -> seq<seq<S3Object>>): seq<S3Point>
  {
    if buckets == [] then []
    else BucketsPoints(buckets[..|buckets| - 1], listing)
         + PrefixesPoints(buckets[|buckets| - 1], ManifestPrefixes, listing)
  }

  /** Every S3 point was read from one of the buckets. */
  lemma {:induction false} BucketsPointsFrom(buckets: seq<string>, listing: (string, string) -> seq<seq<S3Object>>)
    ensures forall p :: p in BucketsPoints(buckets, listing) ==>
              p.bucket in buckets && FromListing(p, p.bucket, ManifestPrefixes, listing)
  {
    if buckets != [] {
      var init := buckets[..|buckets| - 1];
      var last := buckets[|buckets| - 1];
      BucketsPointsFrom(init, listing);
      PrefixesPointsFrom(last, ManifestPrefixes, listing);
      forall p | p in PrefixesPoints(last, ManifestPrefixes, listing) ensures p.bucket == last {
        var i, j, o :| 0 <= i < |ManifestPrefixes| && 0 <= j < |listing(last, ManifestPrefixes[i])|
                       && o in listing(last, ManifestPrefixes[i])[j]
                       && EndsWith(KeyOf(o), ".csv") && p == PointOf(last, o);
      }
      assert buckets == init + [last];
    }
  }

  /** What the endpoint answers, from the listings the account's session sees. */
  function RecoveryPointsOf(settings: Settings, header: Option<string>, accountId: string,
                            caller: Result<Option<string>>, assumeError: Option<Error>,
                            bucketNames: seq<Option<string>>, listing: (string, string) -> seq<seq<S3Object>>,
                            vaults: seq<Option<string>>, backupListing: Option<string> -> seq<seq<RecoveryPoint>>)
    : Result<Response>
  {
    var auth := Auth(settings.apiToken, header);
    var session := Assume(settings.roleName, accountId, caller, assumeError);
    if auth.Err? then Err(auth.error)
    else if session.Err? then Err(session.error)
    else Ok(Response(accountId, BucketsPoints(CentralBuckets(bucketNames, settings.bucketPattern), listing),
                     BackupPoints(vaults, backupListing)))
  }

  /**
   * `GET /recovery-points/{account_id}` behind `auth`: the caller's session
   * or the assumed role, the S3 points of every central bucket, then the
   * AWS Backup points of every vault.
   */
  method RecoveryPoints(settings: Settings, header: Option<string>, accountId: string,
                        caller: Result<Option<string>>, assumeError: Option<Error>,
                        bucketNames: seq<Option<string>>, listing: (string, string) -> seq<seq<S3Object>>,
                        vaults: seq<Option<string>>, backupListing: Option<string> -> seq<seq<RecoveryPoint>>)
    returns (r: Result<Response>)
    ensures r == RecoveryPointsOf(settings, header, accountId, caller, assumeError, bucketNames, listing,
                                  vaults, backupListing)
  {
    var auth := Auth(settings.apiToken, header);
    if auth.Err? {
      return Err(auth.error);
    }
    var session := Assume(settings.roleName, accountId, caller, assumeError);
    if session.Err? {
      return Err(session.error);
    }
    var buckets := CentralBuckets(bucketNames, settings.bucketPattern);
    var s3Points: seq<S3Point> := [];
    var i := 0;
    while i < |buckets|
      invariant 0 <= i <= |buckets|
      invariant s3Points == BucketsPoints(buckets[..i], listing)
    {
      assert buckets[..i + 1][..i] == buckets[..i];
      var points := ListS3RecoveryPoints(buckets[i], listing);
      s3Points := s3Points + points;
      i := i + 1;
    }
    assert buckets[..i] == buckets;
    var backupPoints := ListBackupRecoveryPoints(vaults, backupListing);
    r := Ok(Response(accountId, s3Points, backupPoints));
  }

  /** A request without the right token is refused before any account is reached. */
  lemma UnauthorizedFirst(settings: Settings, header: Option<string>, accountId: string,
                          caller: Result<Option<string>>, assumeError: Option<Error>,
                          bucketNames: seq<Option<string>>, listing: (string, string) -> seq<seq<S3Object>>,
                          vaults: seq<Option<string>>, backupListing: Option<string> -> seq<seq<RecoveryPoint>>)
    requires !Truthy(settings.apiToken) || header != settings.apiToken
    ensures RecoveryPointsOf(settings, header, accountId, caller, assumeError, bucketNames, listing,
                             vaults, backupListing) == Err(Unauthorized)
  {
  }

  /**
   * An answer lists only manifests of central buckets: every S3 point is a
   * `.csv` object listed under a criticality prefix of a bucket whose name
   * is non-empty and contains the pattern; every AWS Backup point belongs
   * to a listed vault.
   */
  lemma ResponseFromCentralBuckets(settings: Settings, header: Option<string>, accountId: string,
                                   caller: Result<Option<string>>, assumeError: Option<Error>,
                                   bucketNames: seq<Option<string>>, listing: (string, string) -> seq<seq<S3Object>>,
                                   vaults: seq<Option<string>>, backupListing: Option<string> -> seq<seq<RecoveryPoint>>)
    requires RecoveryPointsOf(settings, header, accountId, caller, assumeError, bucketNames, listing,
                              vaults, backupListing).Ok?
    ensures var resp := RecoveryPointsOf(settings, header, accountId, caller, assumeError, bucketNames, listing,
                                         vaults, backupListing).value;
            && resp.accountId == accountId
            && (forall p :: p in resp.s3 ==>
                  p.bucket != "" && Contains(p.bucket, settings.bucketPattern) && Some(p.bucket) in bucketNames
                  && FromListing(p, p.bucket, ManifestPrefixes, listing))
            && forall p :: p in resp.awsBackup ==> p.vault in vaults
  {
    var buckets := CentralBuckets(bucketNames, settings.bucketPattern);
    BucketsPointsFrom(buckets, listing);
    CentralBucketsExact(bucketNames, settings.bucketPattern);
    BackupPointsVaults(vaults, backupListing);
  }
}
