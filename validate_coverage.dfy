/**
 * The coverage validator: the keys of a source bucket against the original
 * keys read back from the backup paths in the central bucket. A backup key
 * is read back as the path after its `window=` or `timestamp=` segment, and
 * a bucket is covered when no source key is missing.
 */
module ValidateCoverage {
  import opened Base
  import opened Strings
  import opened Stamps
  import LaunchBatchJob

  // ---------------------------------------------------------------------
  // the source side

  /** The object keys of a listing: every key that is not a folder marker. */
  function SourceKeys(keys: seq<string>): set<string>
  {
    set k | k in keys && !EndsWith(k, "/")
  }

  /** `get_source_objects`: every listed key except folder markers; a failed listing raises. */
  method SourceObjects(listing: Result<seq<string>>) returns (r: Result<set<string>>)
    ensures listing.Err? ==> r == Err(listing.error)
    ensures listing.Ok? ==> r.Ok? && forall k :: k in r.value <==> k in listing.value && !EndsWith(k, "/")
  {
    if listing.Err? {
      return Err(listing.error);
    }
    var keys: set<string> := {};
    var i := 0;
    while i < |listing.value|
      invariant 0 <= i <= |listing.value|
      invariant forall k :: k in keys <==> k in listing.value[..i] && !EndsWith(k, "/")
    {
      var key := listing.value[i];
      assert listing.value[..i + 1] == listing.value[..i] + [key];
      if !EndsWith(key, "/") {
        keys := keys + {key};
      }
      i := i + 1;
    }
    assert listing.value[..i] == listing.value;
    r := Ok(keys);
  }

  // ---------------------------------------------------------------------
  // reading a backup key back

  predicate IsMarker(part: string)
  {
    StartsWith(part, "window=") || StartsWith(part, "timestamp=")
  }

  /** The index of the first `window=` or `timestamp=` segment. */
  function FirstMarker(parts: seq<string>): (r: Option<nat>)
    ensures r.Some? ==> r.value < |parts| && IsMarker(parts[r.value])
                        && forall j :: 0 <= j < r.value ==> !IsMarker(parts[j])
    ensures r.None? ==> forall j :: 0 <= j < |parts| ==> !IsMarker(parts[j])
  {
    if parts == [] then None
    else if IsMarker(parts[0]) then Some(0)
    else match FirstMarker(parts[1..])
      case None => None
      case Some(i) => Some(i + 1)
  }

  /**
   * The original key `get_backed_up_objects` reads from a backup key, as
   * written: the segments after the first marker, kept when non-empty and
   * when `bucket=<source>` occurs anywhere in the key.
   */
  function OriginalKey(key: string, source: string): Option<string>
  {
    var parts := Split(key, '/');
    match FirstMarker(parts)
      case None => None
      case Some(i) =>
        if i + 1 < |parts| && Contains(key, "bucket=" + source) && Join(parts[i + 1..], '/') != ""
        then Some(Join(parts[i + 1..], '/'))
        else None
  }

  /**
   * The evidently intended reading: the key belongs to the source bucket
   * only when one of the segments before the marker is exactly
   * `bucket=<source>`.
   */
  function OriginalKeyExact(key: string, source: string): Option<string>
  {
    var parts := Split(key, '/');
    match FirstMarker(parts)
      case None => None
      case Some(i) =>
        if i + 1 < |parts| && "bucket=" + source in parts[..i] && Join(parts[i + 1..], '/') != ""
        then Some(Join(parts[i + 1..], '/'))
        else None
  }

  /** The object a Batch job launched for `source` writes for the source key `k`. */
  function LaunchedKey(criticality: string, backupType: string, generation: string, initiative: string,
                       source: string, t: DateTime, k: string): string
  {
    LaunchBatchJob.DataPrefix(criticality, backupType, generation, initiative, source, t) + "/" + k
  }

  predicate PlainComponents(criticality: string, backupType: string, generation: string, initiative: string,
                            source: string)
  {
    '/' !in criticality && '/' !in backupType && '/' !in generation && '/' !in initiative && '/' !in source
  }

  /** How a launched key splits: the run's segments, then the pieces of the source key. */
  lemma {:induction false} LaunchedKeyParts(criticality: string, backupType: string, generation: string,
                                            initiative: string, source: string, t: DateTime, k: string)
    requires PlainComponents(criticality, backupType, generation, initiative, source)
    ensures var d := LaunchBatchJob.DataSegments(criticality, backupType, generation, initiative, source, t);
            var key := LaunchedKey(criticality, backupType, generation, initiative, source, t, k);
            var parts := Split(key, '/');
            parts == d + Split(k, '/') && |d| == 11 && d[5] == "bucket=" + source
            && FirstMarker(parts) == Some(10) && parts[..10] == d[..10]
            && Join(parts[11..], '/') == k && Contains(key, d[5])
  {
    var d := LaunchBatchJob.DataSegments(criticality, backupType, generation, initiative, source, t);
    LaunchedKeySplit(criticality, backupType, generation, initiative, source, t, k);
    var parts := d + Split(k, '/');
    DataSegmentsMarkers(criticality, backupType, generation, initiative, source, t);
    MarkerAtTen(d, Split(k, '/'));
    assert parts[11..] == Split(k, '/');
    JoinSplit(k, '/');
    LaunchedKeyNamesBucket(criticality, backupType, generation, initiative, source, t, k);
  }

  /** A launched key splits into the run's data segments, then the pieces of the source key. */
  lemma LaunchedKeySplit(criticality: string, backupType: string, generation: string,
                         initiative: string, source: string, t: DateTime, k: string)
    requires PlainComponents(criticality, backupType, generation, initiative, source)
    ensures Split(LaunchedKey(criticality, backupType, generation, initiative, source, t, k), '/')
            == LaunchBatchJob.DataSegments(criticality, backupType, generation, initiative, source, t)
               + Split(k, '/')
  {
    var prefix := LaunchBatchJob.DataPrefix(criticality, backupType, generation, initiative, source, t);
    LaunchBatchJob.DataPathSplits(criticality, backupType, generation, initiative, source, t);
    assert prefix + "/" + k == prefix + ['/'] + k;
    SplitAround(prefix, k, '/');
  }

  /** With no marker among its first ten segments and one at the eleventh, the first marker is there. */
  lemma MarkerAtTen(d: seq<string>, rest: seq<string>)
    requires |d| == 11 && IsMarker(d[10])
    requires forall j :: 0 <= j < 10 ==> !IsMarker(d[j])
    ensures FirstMarker(d + rest) == Some(10)
  {
    var parts := d + rest;
    assert IsMarker(parts[10]);
    assert forall j :: 0 <= j < 10 ==> parts[j] == d[j];
  }

  /** A run's data segments hold no marker before the run stamp. */
  lemma DataSegmentsMarkers(criticality: string, backupType: string, generation: string,
                            initiative: string, source: string, t: DateTime)
    ensures var d := LaunchBatchJob.DataSegments(criticality, backupType, generation, initiative, source, t);
            |d| == 11 && IsMarker(d[10]) && forall j :: 0 <= j < 10 ==> !IsMarker(d[j])
  {
    var d := LaunchBatchJob.DataSegments(criticality, backupType, generation, initiative, source, t);
    forall j | 0 <= j < 10
      ensures !IsMarker(d[j])
    {
      assert |d[j]| > 0 && d[j][0] != 'w' && d[j][0] != 't';
    }
  }

  /** A launched key holds its bucket segment. */
  lemma LaunchedKeyNamesBucket(criticality: string, backupType: string, generation: string,
                               initiative: string, source: string, t: DateTime, k: string)
    ensures Contains(LaunchedKey(criticality, backupType, generation, initiative, source, t, k), "bucket=" + source)
  {
    var d := LaunchBatchJob.DataSegments(criticality, backupType, generation, initiative, source, t);
    var prefix := LaunchBatchJob.DataPrefix(criticality, backupType, generation, initiative, source, t);
    assert d[5] == "bucket=" + source;
    JoinContainsPiece(d, '/', 5);
    ContainsInPrefix(prefix, "/" + k, d[5]);
    assert prefix + "/" + k == prefix + ("/" + k);
  }

  /** The validator reads back the source key of every object a launched job writes. */
  lemma LaunchedKeyReadBack(criticality: string, backupType: string, generation: string, initiative: string,
                            source: string, t: DateTime, k: string)
    requires PlainComponents(criticality, backupType, generation, initiative, source) && k != ""
    ensures OriginalKey(LaunchedKey(criticality, backupType, generation, initiative, source, t, k), source)
            == Some(k)
  {
    LaunchedKeyParts(criticality, backupType, generation, initiative, source, t, k);
  }

  /**
   * As written, the backup of another bucket whose name extends the source's
   * name (`dev-raw-data` for `dev-raw`) is read back as coverage of the
   * source bucket.
   */
  lemma OtherBucketCountsAsCovered(criticality: string, backupType: string, generation: string,
                                   initiative: string, source: string, suffix: string, t: DateTime, k: string)
    requires PlainComponents(criticality, backupType, generation, initiative, source + suffix)
    requires k != "" && suffix != ""
    ensures OriginalKey(LaunchedKey(criticality, backupType, generation, initiative, source + suffix, t, k), source)
            == Some(k)
  {
    LaunchedKeyParts(criticality, backupType, generation, initiative, source + suffix, t, k);
    var other := "bucket=" + (source + suffix);
    assert other[..|"bucket=" + source|] == "bucket=" + source;
    ContainsAt(other, "bucket=" + source, 0);
    ContainsTransitive(LaunchedKey(criticality, backupType, generation, initiative, source + suffix, t, k),
                       other, "bucket=" + source);
  }

  /** Reading the bucket segment exactly, a launched key is credited to its own bucket and to no other. */
  lemma ExactReadBack(criticality: string, backupType: string, generation: string, initiative: string,
                      owner: string, source: string, t: DateTime, k: string)
    requires PlainComponents(criticality, backupType, generation, initiative, owner) && k != ""
    ensures OriginalKeyExact(LaunchedKey(criticality, backupType, generation, initiative, owner, t, k), source)
            == if source == owner then Some(k) else None
  {
    LaunchedKeyParts(criticality, backupType, generation, initiative, owner, t, k);
    BucketAmongSegments(criticality, backupType, generation, initiative, owner, source, t);
  }

  /** Among the segments before the run stamp, `bucket=<source>` names the run's own bucket only. */
  lemma BucketAmongSegments(criticality: string, backupType: string, generation: string, initiative: string,
                            owner: string, source: string, t: DateTime)
    ensures var d := LaunchBatchJob.DataSegments(criticality, backupType, generation, initiative, owner, t);
            "bucket=" + source in d[..10] <==> source == owner
  {
    var d := LaunchBatchJob.DataSegments(criticality, backupType, generation, initiative, owner, t);
    var b := "bucket=" + source;
    assert b[0] == 'b' && b[1] == 'u';
    if b in d[..10] {
      var j :| 0 <= j < 10 && d[j] == b;
      assert d[j][0] == 'b' && d[j][1] == 'u';
      assert j == 5;
      assert b[7..] == source && d[5][7..] == owner;
    }
    if source == owner {
      assert d[..10][5] == b;
    }
  }

  // ---------------------------------------------------------------------
  // the central side

  /** The original keys an extraction reads from a sequence of backup keys. */
  function Extracted(keys: seq<string>, extract: string -> Option<string>): (r: set<string>)
    ensures forall x :: x in r <==> exists i :: 0 <= i < |keys| && extract(keys[i]) == Some(x)
  {
    if keys == [] then {}
    else
      var rest := Extracted(keys[..|keys| - 1], extract);
      var last := keys[|keys| - 1];
      assert forall i :: 0 <= i < |keys| - 1 ==> keys[..|keys| - 1][i] == keys[i];
      rest + (match extract(last) case Some(x) => {x} case None => {})
  }

  /** The reading the coverage scan uses: the corrected one, matching the bucket segment exactly. */
  function OriginalKeyOf(source: string): string -> Option<string>
  {
    key => OriginalKeyExact(key, source)
  }

  /** The prefixes scanned: incremental, full and the legacy `data/` layout of the criticality. */
  function CentralPrefixes(criticality: string): seq<string>
  {
    ["backup/criticality=" + criticality + "/backup_type=incremental/",
     "backup/criticality=" + criticality + "/backup_type=full/",
     "data/criticality=" + criticality + "/"]
  }

  /** The keys listed under each prefix in turn; a listing error ends that prefix's keys early. */
  function Listed(list: string -> seq<string>, prefixes: seq<string>): seq<string>
  {
    if prefixes == [] then [] else Listed(list, prefixes[..|prefixes| - 1]) + list(prefixes[|prefixes| - 1])
  }

  lemma ExtractedSnoc(keys: seq<string>, key: string, extract: string -> Option<string>)
    ensures Extracted(keys + [key], extract)
            == Extracted(keys, extract) + (match extract(key) case Some(x) => {x} case None => {})
  {
    assert (keys + [key])[..|keys|] == keys;
  }

  /** The keys of one listing read back and added to those read so far. */
  method ExtractInto(listed: seq<string>, extract: string -> Option<string>, ghost before: seq<string>,
                     keys0: set<string>) returns (keys: set<string>)
    requires keys0 == Extracted(before, extract)
    ensures keys == Extracted(before + listed, extract)
  {
    keys := keys0;
    var i := 0;
    ghost var done := before;
    assert before + listed[..0] == before;
    while i < |listed|
      invariant 0 <= i <= |listed|
      invariant done == before + listed[..i]
      invariant keys == Extracted(done, extract)
    {
      SnocShift(before, listed, i);
      keys := AddExtracted(keys, listed[i], extract, done);
      done := done + [listed[i]];
      i := i + 1;
    }
    assert listed[..i] == listed;
  }

  /** The body of the scan for one key: its original key, when it has one, joins the set. */
  method AddExtracted(keys0: set<string>, key: string, extract: string -> Option<string>, ghost done: seq<string>)
    returns (keys: set<string>)
    requires keys0 == Extracted(done, extract)
    ensures keys == Extracted(done + [key], extract)
  {
    ExtractedSnoc(done, key, extract);
    var original := extract(key);
    keys := keys0;
    if original.Some? {
      keys := keys + {original.value};
    }
  }

  lemma SnocShift(before: seq<string>, listed: seq<string>, i: nat)
    requires i < |listed|
    ensures before + listed[..i + 1] == (before + listed[..i]) + [listed[i]]
  {
    assert listed[..i + 1] == listed[..i] + [listed[i]];
  }

  /** `get_backed_up_objects`. */
  method BackedUpObjects(list: string -> seq<string>, source: string, criticality: string)
    returns (keys: set<string>)
    ensures keys == Extracted(Listed(list, CentralPrefixes(criticality)), OriginalKeyOf(source))
  {
    var prefixes := CentralPrefixes(criticality);
    keys := {};
    var p := 0;
    while p < |prefixes|
      invariant 0 <= p <= |prefixes|
      invariant keys == Extracted(Listed(list, prefixes[..p]), OriginalKeyOf(source))
    {
      assert prefixes[..p + 1][..p] == prefixes[..p];
      assert Listed(list, prefixes[..p + 1]) == Listed(list, prefixes[..p]) + list(prefixes[p]);
      keys := ExtractInto(list(prefixes[p]), OriginalKeyOf(source), Listed(list, prefixes[..p]), keys);
      p := p + 1;
    }
    assert prefixes[..p] == prefixes;
  }

  // ---------------------------------------------------------------------
  // comparing the two sides

  datatype Stats = Stats(sourceBucket: string, criticality: string, totalSource: nat, totalBackedUp: nat,
                         missingCount: nat, extraCount: nat, missingKeys: seq<string>, extraKeys: seq<string>)

  /** At most 50 distinct elements of a set, the `list(s)[:50]` of the report. */
  function Sample(s: set<string>): (r: seq<string>)
    ensures |r| == if |s| < 50 then |s| else 50
    ensures forall x :: x in r ==> x in s
    ensures StrictlySorted(r)
  {
    var sorted := SortSet(s);
    if |sorted| <= 50 then sorted else sorted[..50]
  }

  /** The set comparison of `validate_bucket`: success and the report. */
  function Compare(sourceKeys: set<string>, backed: set<string>, source: string, criticality: string)
    : (bool, Stats)
  {
    var missing := sourceKeys - backed;
    var extra := backed - sourceKeys;
    (missing == {}, Stats(source, criticality, |sourceKeys|, |backed|, |missing|, |extra|, Sample(missing),
                          Sample(extra)))
  }

  /**
   * Missing and extra keys never overlap, a bucket is covered exactly when
   * every source key was backed up, extra keys never make it fail, and the
   * missing and backed-up source keys add up to the source keys.
   */
  lemma CompareFacts(sourceKeys: set<string>, backed: set<string>, source: string, criticality: string)
    ensures var (ok, stats) := Compare(sourceKeys, backed, source, criticality);
            (sourceKeys - backed) * (backed - sourceKeys) == {}
            && (ok <==> sourceKeys <= backed)
            && (ok ==> stats.missingCount == 0 && stats.missingKeys == [])
            && stats.missingCount + |sourceKeys * backed| == stats.totalSource
  {
    var missing := sourceKeys - backed;
    var common := sourceKeys * backed;
    assert sourceKeys == missing + common;
    assert missing * common == {};
    if missing == {} {
      assert sourceKeys <= backed;
    } else {
      var x :| x in missing;
      assert !(sourceKeys <= backed);
    }
  }

  /** `validate_bucket` with the two listings given. */
  method ValidateBucket(sourceListing: Result<seq<string>>, list: string -> seq<string>, source: string,
                        criticality: string) returns (r: Result<(bool, Stats)>)
    ensures r == Outcome(sourceListing, list, source, criticality)
  {
    var sourceKeys := SourceObjects(sourceListing);
    if sourceKeys.Err? {
      return Err(sourceKeys.error);
    }
    var backed := BackedUpObjects(list, source, criticality);
    assert sourceKeys.value == SourceKeys(sourceListing.value);
    r := Ok(Compare(sourceKeys.value, backed, source, criticality));
  }

  function Outcome(sourceListing: Result<seq<string>>, list: string -> seq<string>, source: string,
                   criticality: string): Result<(bool, Stats)>
  {
    match sourceListing
      case Err(e) => Err(e)
      case Ok(keys) =>
        Ok(Compare(SourceKeys(keys),
                   Extracted(Listed(list, CentralPrefixes(criticality)), OriginalKeyOf(source)), source, criticality))
  }

  // ---------------------------------------------------------------------
  // discovery and the exit code

  /** `{t['Key']: t['Value'] for t in tags}.get(key, default)`: the last pair with the key wins. */
  function TagValue(tags: seq<(string, string)>, key: string, default: string): (r: string)
    ensures (forall i :: 0 <= i < |tags| ==> tags[i].0 != key) ==> r == default
    ensures |tags| > 0 && tags[|tags| - 1].0 == key ==> r == tags[|tags| - 1].1
  {
    if tags == [] then default
    else if tags[|tags| - 1].0 == key then tags[|tags| - 1].1
    else TagValue(tags[..|tags| - 1], key, default)
  }

  /** A bucket found by the tagging API: its name after the last `:::`, and its criticality. */
  function Discovered(arn: string, tags: seq<(string, string)>): (r: (string, string))
    ensures EndsWith(arn, r.0)
    ensures !Contains(arn, ":::") ==> r.0 == arn
  {
    (AfterLast(arn, ":::"), TagValue(tags, "BackupCriticality", "MenosCritico"))
  }

  /** A bucket passes when it is validated without error and fully covered. */
  predicate Passes(bucket: (string, string), sourceListing: string -> Result<seq<string>>,
                   list: string -> seq<string>)
  {
    var o := Outcome(sourceListing(bucket.0), list, bucket.0, bucket.1);
    o.Ok? && o.value.0
  }

  /**
   * The loop of `main`: 0 when there are no buckets or every bucket
   * validated without error and was covered, else 1.
   */
  method ExitCode(buckets: seq<(string, string)>, sourceListing: string -> Result<seq<string>>,
                  list: string -> seq<string>) returns (code: int)
    ensures code == 0 || code == 1
    ensures code == 0 <==> forall i :: 0 <= i < |buckets| ==> Passes(buckets[i], sourceListing, list)
  {
    if buckets == [] {
      return 0;
    }
    var allSuccess := true;
    var i := 0;
    while i < |buckets|
      invariant 0 <= i <= |buckets|
      invariant allSuccess <==> forall j :: 0 <= j < i ==> Passes(buckets[j], sourceListing, list)
    {
      var passed := CheckBucket(buckets[i], sourceListing, list);
      allSuccess := allSuccess && passed;
      i := i + 1;
    }
    code := if allSuccess then 0 else 1;
  }

  /** One bucket of the loop of `main`: whether it validated without error and was covered. */
  method CheckBucket(bucket: (string, string), sourceListing: string -> Result<seq<string>>,
                     list: string -> seq<string>) returns (passed: bool)
    ensures passed == Passes(bucket, sourceListing, list)
  {
    var (source, criticality) := bucket;
    var r := ValidateBucket(sourceListing(source), list, source, criticality);
    passed := r.Ok? && r.value.0;
  }
}
