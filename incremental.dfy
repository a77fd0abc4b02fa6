/**
 * The event-driven incremental backup: S3 "object created" notifications
 * arrive in SQS batches, each object is placed in a time window according
 * to its bucket's criticality, keys are grouped per (criticality, bucket,
 * window), and every group becomes one CSV manifest in the central bucket
 * and one S3 Batch Operations copy job.
 */
module IncrementalBackup {
  import opened Base
  import opened Strings
  import opened Stamps
  import opened ObjectStore

  // ---------------------------------------------------------------------
  // criticality and windows

  /** FREQUENCY_MAP: window length in hours, or None when no incrementals are taken. */
  function FrequencyHours(criticality: string): (r: Option<nat>)
    ensures r.Some? <==> criticality == "Critico" || criticality == "MenosCritico"
    ensures r.Some? ==> r.value > 0 && 24 % r.value == 0
    ensures criticality == "Critico" ==> r == Some(12)
    ensures criticality == "MenosCritico" ==> r == Some(24)
  {
    if criticality == "Critico" then Some(12)
    else if criticality == "MenosCritico" then Some(24)
    else None
  }

  datatype Tag = Tag(key: string, value: string)

  /** The answer of `get_bucket_tagging`: a tag set, or the error code it raised. */
  datatype TagAnswer = TagSet(tags: seq<Tag>) | TagError(code: string)

  /** `{t["Key"]: t["Value"] for t in tags}.get(key)`: the last tag with that key wins. */
  function LastTagValue(tags: seq<Tag>, key: string): (r: Option<string>)
    ensures r.None? <==> forall i :: 0 <= i < |tags| ==> tags[i].key != key
    ensures r.Some? ==> exists i :: 0 <= i < |tags| && tags[i] == Tag(key, r.value)
                          && forall j :: i < j < |tags| ==> tags[j].key != key
    decreases |tags|
  {
    if |tags| == 0 then None
    else if tags[|tags| - 1].key == key then Some(tags[|tags| - 1].value)
    else LastTagValue(tags[..|tags| - 1], key)
  }

  /** The criticality `get_bucket_criticality` derives from a tagging answer. */
  function CriticalityOf(answer: TagAnswer, tagKey: string): (r: Result<string>)
    ensures answer.TagError? ==> (r.Ok? <==> answer.code == "NoSuchTagSet")
    ensures answer.TagSet? ==> r.Ok?
    ensures r.Ok? && r.value != "MenosCritico" ==>
              answer.TagSet? && exists i :: 0 <= i < |answer.tags| && answer.tags[i] == Tag(tagKey, r.value)
    ensures (answer.TagSet? && forall i :: 0 <= i < |answer.tags| ==> answer.tags[i].key != tagKey)
              ==> r == Ok("MenosCritico")
  {
    match answer
      case TagError(code) =>
        if code == "NoSuchTagSet" then Ok("MenosCritico") else Err(ClientError(code))
      case TagSet(tags) =>
        match LastTagValue(tags, tagKey)
          case Some(v) => Ok(v)
          case None => Ok("MenosCritico")
  }

  /**
   * The module-level criticality cache. A non-empty cached value is answered
   * without asking S3 again; `lookups` records the buckets S3 was asked about.
   */
  class CriticalityCache {
    var cache: map<string, string>
    var lookups: seq<string>
    const tagsOf: string -> TagAnswer
    const tagKey: string

    /** Every cached value is what a fresh lookup would give. */
    ghost predicate Valid()
      reads this
    {
      forall b :: b in cache ==> CriticalityOf(tagsOf(b), tagKey) == Ok(cache[b])
    }

    constructor (tagsOf0: string -> TagAnswer, tagKey0: string)
      ensures Valid() && cache == map[] && lookups == []
      ensures tagsOf == tagsOf0 && tagKey == tagKey0
    {
      cache := map[];
      lookups := [];
      tagsOf := tagsOf0;
      tagKey := tagKey0;
    }

    /** `get_bucket_criticality`. */
    method Get(bucket: string) returns (r: Result<string>)
      requires Valid()
      modifies this
      ensures Valid()
      ensures r == CriticalityOf(tagsOf(bucket), tagKey)
      ensures old(bucket in cache && cache[bucket] != "") ==>
                cache == old(cache) && lookups == old(lookups)
      ensures !old(bucket in cache && cache[bucket] != "") ==>
                lookups == old(lookups) + [bucket]
                && cache == (if r.Ok? then old(cache)[bucket := r.value] else old(cache))
    {
      if bucket in cache && cache[bucket] != "" {
        return Ok(cache[bucket]);
      }
      lookups := lookups + [bucket];
      r := CriticalityOf(tagsOf(bucket), tagKey);
      if r.Ok? {
        cache := cache[bucket := r.value];
      }
    }
  }

  /** `within_allowed_prefixes`: no prefixes configured means everything is allowed. */
  function WithinAllowedPrefixes(allowed: map<string, seq<string>>, criticality: string,
                                 key: string): (r: bool)
    ensures criticality !in allowed || allowed[criticality] == [] ==> r
    ensures criticality in allowed && allowed[criticality] != [] ==>
              (r <==> exists i :: 0 <= i < |allowed[criticality]|
                                  && StartsWith(key, allowed[criticality][i]))
  {
    var prefixes := if criticality in allowed then allowed[criticality] else [];
    prefixes == [] || StartsWithAny(key, prefixes)
  }

  /** A multiple of `f` divides back exactly. */
  lemma MultipleDivides(q: nat, f: nat)
    requires f > 0
    ensures (q * f) / f == q && (q * f) % f == 0
  {
    var x := q * f;
    var d, m := x / f, x % f;
    assert x == d * f + m && 0 <= m < f;
    assert (q - d) * f == m;
    if q - d >= 1 {
      ProductAtLeast(q - d, f);
    } else if q - d <= -1 {
      ProductAtLeast(d - q, f);
    }
  }

  /** A positive multiple of `f` is at least `f`. */
  lemma ProductAtLeast(a: int, f: int)
    requires a >= 1 && f > 0
    ensures a * f >= f
  {
    assert a * f == (a - 1) * f + f;
    assert (a - 1) * f >= 0;
  }

  /** `(h // f) * f` is the multiple of `f` at most `f - 1` below `h`. */
  lemma FloorMultiple(h: nat, f: nat)
    requires f > 0
    ensures (h / f) * f <= h < (h / f) * f + f
    ensures ((h / f) * f) % f == 0 && ((h / f) * f) / f == h / f
  {
    assert h == (h / f) * f + h % f && h % f < f;
    MultipleDivides(h / f, f);
  }

  /** `compute_window_start`: the start of the `freq`-hour window holding `t`. */
  function WindowStart(t: DateTime, freq: nat): (w: DateTime)
    requires freq > 0
    ensures w.year == t.year && w.month == t.month && w.day == t.day
    ensures w.hour % freq == 0 && w.hour <= t.hour < w.hour + freq
    ensures w.minute == 0 && w.second == 0 && w.micro == 0
    ensures Valid(t) ==> Valid(w)
  {
    FloorMultiple(t.hour, freq);
    t.(hour := (t.hour / freq) * freq, minute := 0, second := 0, micro := 0)
  }

  const MicrosPerHour: int := 3600000000

  /** The window holds `t`: it starts no later than `t` and ends after it. */
  lemma WindowContains(t: DateTime, freq: nat)
    requires Valid(t) && freq > 0
    ensures NotAfter(WindowStart(t, freq), t)
    ensures Instant(t) < Instant(WindowStart(t, freq)) + freq * MicrosPerHour
  {
    var w := WindowStart(t, freq);
    var d := t.hour - w.hour;
    assert 0 <= d < freq;
    assert Instant(t) - Instant(w) == ((d * 60 + t.minute) * 60 + t.second) * 1000000 + t.micro;
    assert Instant(t) - Instant(w) < (d + 1) * MicrosPerHour;
    assert (d + 1) * MicrosPerHour <= freq * MicrosPerHour;
  }

  /** Flooring a window start gives it back. */
  lemma WindowStartIdempotent(t: DateTime, freq: nat)
    requires freq > 0
    ensures WindowStart(WindowStart(t, freq), freq) == WindowStart(t, freq)
  {
    FloorMultiple(t.hour, freq);
  }

  /** Two events share a window label exactly when they share the window start. */
  lemma SameLabelSameWindow(t1: DateTime, t2: DateTime, freq: nat)
    requires Valid(t1) && Valid(t2) && freq > 0
    ensures WindowLabel(WindowStart(t1, freq)) == WindowLabel(WindowStart(t2, freq))
            <==> WindowStart(t1, freq) == WindowStart(t2, freq)
  {
    var w1, w2 := WindowStart(t1, freq), WindowStart(t2, freq);
    if WindowLabel(w1) == WindowLabel(w2) {
      WindowLabelInjective(w1, w2);
    }
  }

  // ---------------------------------------------------------------------
  // manifest and job paths

  /** Settings read from the environment, plus URL decoding of keys. */
  datatype Config = Config(backupBucket: string, backupBucketArn: string, initiative: string,
                           generation: string, allowed: map<string, seq<string>>,
                           unquote: string -> string)

  function ManifestKey(criticality: string, initiative: string, bucket: string,
                       window: string, runId: string): string
  {
    Join(["manifests", "criticality=" + criticality, "backup_type=incremental",
          "initiative=" + initiative, "bucket=" + bucket, "window=" + window,
          "manifest-" + runId + ".csv"], '/')
  }

  /** The Batch copy target prefix of a window's objects. */
  function DataPrefix(criticality: string, generation: string, initiative: string,
                      bucket: string, start: DateTime, runId: string): string
  {
    Join(["backup", "criticality=" + criticality, "backup_type=incremental",
          "generation=" + generation, "initiative=" + initiative, "bucket=" + bucket,
          "year=" + Pad(start.year, 4), "month=" + Pad(start.month, 2),
          "day=" + Pad(start.day, 2), "hour=" + Pad(start.hour, 2),
          "timestamp=" + runId], '/')
  }

  function ReportsPrefix(criticality: string, initiative: string, bucket: string,
                         window: string, runId: string): string
  {
    Join(["reports", "criticality=" + criticality, "backup_type=incremental",
          "initiative=" + initiative, "bucket=" + bucket, "window=" + window,
          "run=" + runId], '/')
  }

  function ObjectArn(bucket: string, key: string): string
  {
    "arn:aws:s3:::" + bucket + "/" + key
  }

  /**
   * Manifests of different groups never share a key: the key determines the
   * criticality, bucket, window and run it was written for.
   */
  lemma ManifestKeyInjective(c1: string, i1: string, b1: string, l1: string, r1: string,
                             c2: string, i2: string, b2: string, l2: string, r2: string)
    requires forall x :: x in [c1, i1, b1, l1, r1, c2, i2, b2, l2, r2] ==> '/' !in x
    requires ManifestKey(c1, i1, b1, l1, r1) == ManifestKey(c2, i2, b2, l2, r2)
    ensures c1 == c2 && i1 == i2 && b1 == b2 && l1 == l2 && r1 == r2
  {
    assert '/' !in c1 && '/' !in i1 && '/' !in b1 && '/' !in l1 && '/' !in r1;
    assert '/' !in c2 && '/' !in i2 && '/' !in b2 && '/' !in l2 && '/' !in r2;
    var p1 := ManifestKeySplits(c1, i1, b1, l1, r1);
    var p2 := ManifestKeySplits(c2, i2, b2, l2, r2);
    assert p1[1] == p2[1] && p1[3] == p2[3] && p1[4] == p2[4] && p1[5] == p2[5] && p1[6] == p2[6];
    SamePrefixRest("criticality=", c1, c2);
    SamePrefixRest("initiative=", i1, i2);
    SamePrefixRest("bucket=", b1, b2);
    SamePrefixRest("window=", l1, l2);
    SamePrefixRest("manifest-", r1 + ".csv", r2 + ".csv");
    assert r1 == (r1 + ".csv")[..|r1|] && r2 == (r2 + ".csv")[..|r2|];
  }

  /** A manifest key splits back into its seven segments. */
  lemma ManifestKeySplits(c: string, i: string, b: string, l: string, r: string) returns (p: seq<string>)
    requires '/' !in c && '/' !in i && '/' !in b && '/' !in l && '/' !in r
    ensures p == Split(ManifestKey(c, i, b, l, r), '/')
    ensures |p| == 7 && p[1] == "criticality=" + c && p[3] == "initiative=" + i && p[4] == "bucket=" + b
            && p[5] == "window=" + l && p[6] == "manifest-" + (r + ".csv")
  {
    p := ["manifests", "criticality=" + c, "backup_type=incremental",
          "initiative=" + i, "bucket=" + b, "window=" + l, "manifest-" + r + ".csv"];
    SplitJoin(p, '/');
    assert "manifest-" + r + ".csv" == "manifest-" + (r + ".csv");
  }

  /** Text after a common prefix determines the whole. */
  lemma SamePrefixRest(pre: string, a: string, b: string)
    requires pre + a == pre + b
    ensures a == b
  {
    assert a == (pre + a)[|pre|..];
    assert b == (pre + b)[|pre|..];
  }

  /** The manifest lines: `bucket,key` for every key, in sorted key order. */
  function ManifestLines(bucket: string, keys: set<string>): (r: seq<string>)
    ensures |r| == |keys|
    ensures forall i :: 0 <= i < |r| ==> r[i] == bucket + "," + SortSet(keys)[i]
  {
    var sorted := SortSet(keys);
    seq(|sorted|, i requires 0 <= i < |sorted| => bucket + "," + sorted[i])
  }

  /** The manifest body `upload_manifest` writes. */
  function ManifestBody(bucket: string, keys: set<string>): string
  {
    Join(ManifestLines(bucket, keys), '\n')
  }

  /**
   * Reading the body back line by line gives one `bucket,key` line per
   * distinct key, in increasing key order, so the object-count metadata
   * (`len(keys)`) equals the number of lines.
   */
  lemma ManifestBodyLines(bucket: string, keys: set<string>)
    requires keys != {}
    requires '\n' !in bucket && forall k :: k in keys ==> '\n' !in k
    ensures var lines := Split(ManifestBody(bucket, keys), '\n');
            |lines| == |keys|
            && (forall k :: k in keys <==> bucket + "," + k in lines)
            && (forall i, j :: 0 <= i < j < |lines| ==> lines[i] != lines[j])
  {
    var lines := ManifestLines(bucket, keys);
    var sorted := SortSet(keys);
    forall i | 0 <= i < |lines| ensures '\n' !in lines[i] {
      assert sorted[i] in keys;
      assert lines[i] == bucket + "," + sorted[i];
    }
    SplitJoin(lines, '\n');
    forall k | k in keys ensures bucket + "," + k in lines {
      var i :| 0 <= i < |sorted| && sorted[i] == k;
      assert lines[i] == bucket + "," + k;
    }
    forall k | bucket + "," + k in lines ensures k in keys {
      var i :| 0 <= i < |lines| && lines[i] == bucket + "," + k;
      assert (bucket + "," + k)[|bucket| + 1..] == k;
      assert (bucket + "," + sorted[i])[|bucket| + 1..] == sorted[i];
    }
    forall i, j | 0 <= i < j < |lines| ensures lines[i] != lines[j] {
      LessIrreflexive(sorted[i]);
      assert (bucket + "," + sorted[i])[|bucket| + 1..] == sorted[i];
      assert (bucket + "," + sorted[j])[|bucket| + 1..] == sorted[j];
    }
  }

  // ---------------------------------------------------------------------
  // the handler

  /** One S3 notification record: bucket, URL-encoded key and ISO event time. */
  datatype S3Event = S3Event(bucket: string, rawKey: string, eventTime: string)

  /** An SQS message; `body` is None when it is not a parseable S3 notification. */
  datatype SqsRecord = SqsRecord(body: Option<seq<S3Event>>)

  datatype GroupKey = GroupKey(criticality: string, bucket: string, window: string)

  /** What the handler does with one notification. */
  datatype Decision = Fail | Skip | Admit(group: GroupKey, start: DateTime, key: string)

  function Decide(cfg: Config, tagsOf: string -> TagAnswer, tagKey: string, e: S3Event): Decision
  {
    match ParseUtc(e.eventTime)
      case None => Fail
      case Some(t) =>
        match CriticalityOf(tagsOf(e.bucket), tagKey)
          case Err(_) => Fail
          case Ok(c) =>
            var key := cfg.unquote(e.rawKey);
            match FrequencyHours(c)
              case None => Skip
              case Some(f) =>
                if !WithinAllowedPrefixes(cfg.allowed, c, key) then Skip
                else
                  var w := WindowStart(t, f);
                  Admit(GroupKey(c, e.bucket, WindowLabel(w)), w, key)
  }

  /** The handler's decision for every notification, with its configuration fixed. */
  function DecideFor(cfg: Config, tagsOf: string -> TagAnswer, tagKey: string): S3Event -> Decision
  {
    e => Decide(cfg, tagsOf, tagKey, e)
  }

  /**
   * An admitted object lands in the group of its own bucket and of the
   * window that holds its event time, under a criticality that has a
   * window frequency and a key the prefix filter lets through.
   */
  lemma AdmittedWindow(cfg: Config, tagsOf: string -> TagAnswer, tagKey: string, e: S3Event)
    requires Decide(cfg, tagsOf, tagKey, e).Admit?
    ensures var d := Decide(cfg, tagsOf, tagKey, e);
            var t := ParseUtc(e.eventTime);
            var f := FrequencyHours(d.group.criticality);
            t.Some? && f.Some?
            && CriticalityOf(tagsOf(e.bucket), tagKey) == Ok(d.group.criticality)
            && d.group.bucket == e.bucket && d.key == cfg.unquote(e.rawKey)
            && WithinAllowedPrefixes(cfg.allowed, d.group.criticality, d.key)
            && d.start == WindowStart(t.value, f.value)
            && d.group.window == WindowLabel(d.start)
            && NotAfter(d.start, t.value)
            && Instant(t.value) < Instant(d.start) + f.value * MicrosPerHour
  {
    var t := ParseUtc(e.eventTime).value;
    var c := CriticalityOf(tagsOf(e.bucket), tagKey).value;
    WindowContains(t, FrequencyHours(c).value);
  }

  /**
   * `grouped_objects` and `window_metadata`; `order` is the insertion order
   * of the dictionary, which the second phase iterates.
   */
  datatype Grouping = Grouping(order: seq<GroupKey>, members: map<GroupKey, set<string>>,
                               starts: map<GroupKey, DateTime>)

  ghost predicate WellFormed(g: Grouping)
  {
    (forall i, j :: 0 <= i < j < |g.order| ==> g.order[i] != g.order[j])
    && (forall gk :: gk in g.members <==> gk in g.order)
    && (forall gk :: gk in g.starts <==> gk in g.members)
    && (forall gk :: gk in g.members ==> g.members[gk] != {})
  }

  /** `grouped_objects.setdefault(gk, set()).add(key)` and `window_metadata[gk] = start`. */
  function AddKey(g: Grouping, gk: GroupKey, start: DateTime, key: string): (r: Grouping)
    ensures gk in r.members && key in r.members[gk]
    ensures forall h :: h != gk ==> (h in r.members <==> h in g.members)
    ensures forall h :: h != gk && h in g.members ==> r.members[h] == g.members[h]
    ensures gk in g.members ==> r.members[gk] == g.members[gk] + {key}
    ensures gk !in g.members ==> r.members[gk] == {key}
  {
    if gk in g.members then
      Grouping(g.order, g.members[gk := g.members[gk] + {key}], g.starts[gk := start])
    else
      Grouping(g.order + [gk], g.members[gk := {key}], g.starts[gk := start])
  }

  /** What one decision does to the grouping. */
  function Apply(g: Grouping, d: Decision): Grouping
  {
    if d.Admit? then AddKey(g, d.group, d.start, d.key) else g
  }

  /** `key` is listed in group `gk`. */
  predicate InGroup(g: Grouping, gk: GroupKey, key: string)
  {
    gk in g.members && key in g.members[gk]
  }

  /** A decision adds exactly the key it admits, to the group it names. */
  lemma ApplyMembers(g: Grouping, d: Decision, gk: GroupKey, key: string)
    ensures InGroup(Apply(g, d), gk, key)
            <==> InGroup(g, gk, key) || (d.Admit? && d.group == gk && d.key == key)
  {
  }

  /** Processing the notifications of one message; the flag says one raised. */
  function AddEvents(decide: S3Event -> Decision,
                     g: Grouping, evs: seq<S3Event>): (r: (Grouping, bool))
    decreases |evs|
  {
    if evs == [] then (g, false)
    else
      var (g1, raised) := AddEvents(decide, g, evs[..|evs| - 1]);
      if raised then (g1, true)
      else
        var d := decide(evs[|evs| - 1]);
        if d.Fail? then (g1, true) else (Apply(g1, d), false)
  }

  /** Processing a batch of messages; the flag is `processing_failed`. */
  function AddRecords(decide: S3Event -> Decision,
                      g: Grouping, recs: seq<SqsRecord>): (r: (Grouping, bool))
    decreases |recs|
  {
    if recs == [] then (g, false)
    else
      var (g1, failed) := AddRecords(decide, g, recs[..|recs| - 1]);
      match recs[|recs| - 1].body
        case None => (g1, true)
        case Some(evs) =>
          var (g2, raised) := AddEvents(decide, g1, evs);
          (g2, failed || raised)
  }

  lemma AddKeyWellFormed(g: Grouping, gk: GroupKey, start: DateTime, key: string)
    requires WellFormed(g)
    ensures WellFormed(AddKey(g, gk, start, key))
  {
  }

  /** Grouping keeps the dictionaries consistent: every listed group is non-empty. */
  lemma {:induction false} AddEventsWellFormed(decide: S3Event -> Decision, g: Grouping,
                                               evs: seq<S3Event>)
    requires WellFormed(g)
    ensures WellFormed(AddEvents(decide, g, evs).0)
    decreases |evs|
  {
    if evs != [] {
      AddEventsWellFormed(decide, g, evs[..|evs| - 1]);
      var g1 := AddEvents(decide, g, evs[..|evs| - 1]).0;
      var d := decide(evs[|evs| - 1]);
      if d.Admit? {
        AddKeyWellFormed(g1, d.group, d.start, d.key);
      }
      assert AddEvents(decide, g, evs).0 in {g1, Apply(g1, d)};
    }
  }

  lemma {:induction false} AddRecordsWellFormed(decide: S3Event -> Decision, g: Grouping,
                                                recs: seq<SqsRecord>)
    requires WellFormed(g)
    ensures WellFormed(AddRecords(decide, g, recs).0)
    decreases |recs|
  {
    if recs != [] {
      AddRecordsWellFormed(decide, g, recs[..|recs| - 1]);
      var g1 := AddRecords(decide, g, recs[..|recs| - 1]).0;
      if recs[|recs| - 1].body.Some? {
        AddEventsWellFormed(decide, g1, recs[|recs| - 1].body.value);
      }
    }
  }

  /** Once a notification raises, the rest of its message is not looked at. */
  lemma {:induction false} RaisedStays(decide: S3Event -> Decision,
                                       g: Grouping, evs: seq<S3Event>, j: nat)
    requires j <= |evs|
    requires AddEvents(decide, g, evs[..j]).1
    ensures AddEvents(decide, g, evs) == AddEvents(decide, g, evs[..j])
    decreases |evs| - j
  {
    if j < |evs| {
      assert evs[..|evs| - 1][..j] == evs[..j];
      RaisedStays(decide, g, evs[..|evs| - 1], j);
    } else {
      assert evs[..j] == evs;
    }
  }

  predicate AdmitsTo(d: Decision, gk: GroupKey, key: string)
  {
    d.Admit? && d.group == gk && d.key == key
  }

  /** Some notification of `evs` admits `key` to group `gk`. */
  ghost predicate AdmittedBy(decide: S3Event -> Decision,
                             evs: seq<S3Event>, gk: GroupKey, key: string)
  {
    exists i :: 0 <= i < |evs| && AdmitsTo(decide(evs[i]), gk, key)
  }

  /** The last notification's share of `AdmittedBy`. */
  lemma AdmittedBySnoc(decide: S3Event -> Decision,
                       evs: seq<S3Event>, gk: GroupKey, key: string)
    requires evs != []
    ensures AdmittedBy(decide, evs, gk, key)
            <==> AdmittedBy(decide, evs[..|evs| - 1], gk, key)
                 || AdmitsTo(decide(evs[|evs| - 1]), gk, key)
  {
    var init := evs[..|evs| - 1];
    if AdmittedBy(decide, init, gk, key) {
      var i :| 0 <= i < |init| && AdmitsTo(decide(init[i]), gk, key);
      assert evs[i] == init[i];
    }
    if AdmittedBy(decide, evs, gk, key) {
      var i :| 0 <= i < |evs| && AdmitsTo(decide(evs[i]), gk, key);
      if i < |init| {
        assert init[i] == evs[i];
      }
    }
  }

  /**
   * When no notification raises, a key is in a group exactly when it was
   * there before or some notification admitted it to that group. Keys are
   * held in sets, so a key notified twice in one window is listed once.
   */
  lemma {:induction false} EventsGroupedExactly(decide: S3Event -> Decision, g: Grouping,
                                                evs: seq<S3Event>,
                                                gk: GroupKey, key: string)
    requires !AddEvents(decide, g, evs).1
    ensures InGroup(AddEvents(decide, g, evs).0, gk, key)
            <==> InGroup(g, gk, key) || AdmittedBy(decide, evs, gk, key)
    decreases |evs|
  {
    if evs != [] {
      var init := evs[..|evs| - 1];
      var d := decide(evs[|evs| - 1]);
      var r1 := AddEvents(decide, g, init);
      assert !r1.1 && !d.Fail?;
      assert AddEvents(decide, g, evs).0 == Apply(r1.0, d);
      EventsGroupedExactly(decide, g, init, gk, key);
      ApplyMembers(r1.0, d, gk, key);
      AdmittedBySnoc(decide, evs, gk, key);
    }
  }

  datatype Job = Job(jobId: string, bucket: string, criticality: string, window: string,
                     objects: nat)

  /** The part of `create_job` the model keeps: where the copies and reports go. */
  datatype JobRequest = JobRequest(targetPrefix: string, reportPrefix: string,
                                   manifestArn: string, manifestETag: string)

  datatype Response = Response(status: string, jobs: seq<Job>, backupBucket: string,
                               totalObjects: nat)

  function TotalObjects(jobs: seq<Job>): nat
  {
    if jobs == [] then 0 else TotalObjects(jobs[..|jobs| - 1]) + jobs[|jobs| - 1].objects
  }

  predicate JobFor(job: Job, g: Grouping, i: int)
    requires WellFormed(g)
  {
    0 <= i < |g.order|
    && var gk := g.order[i];
       job.bucket == gk.bucket && job.criticality == gk.criticality
       && job.window == gk.window && job.objects == |g.members[gk]|
  }

  /** The body of the inner loop of `lambda_handler`, for one notification. */
  method DecideEvent(cfg: Config, e: S3Event, cache: CriticalityCache) returns (d: Decision)
    requires cache.Valid()
    modifies cache
    ensures cache.Valid()
    ensures d == Decide(cfg, cache.tagsOf, cache.tagKey, e)
  {
    var key := cfg.unquote(e.rawKey);
    var t := ParseUtc(e.eventTime);
    if t.None? {
      return Fail;
    }
    var crit := cache.Get(e.bucket);
    if crit.Err? {
      return Fail;
    }
    var freq := FrequencyHours(crit.value);
    if freq.None? || !WithinAllowedPrefixes(cfg.allowed, crit.value, key) {
      return Skip;
    }
    var w := WindowStart(t.value, freq.value);
    d := Admit(GroupKey(crit.value, e.bucket, WindowLabel(w)), w, key);
  }

  /** The inner loop of `lambda_handler` over one message's notifications. */
  method GroupEvents(cfg: Config, evs: seq<S3Event>, cache: CriticalityCache, g0: Grouping)
    returns (g: Grouping, raised: bool)
    requires cache.Valid()
    modifies cache
    ensures cache.Valid()
    ensures (g, raised) == AddEvents(DecideFor(cfg, cache.tagsOf, cache.tagKey), g0, evs)
  {
    g, raised := g0, false;
    var j := 0;
    while j < |evs| && !raised
      invariant 0 <= j <= |evs|
      invariant (g, raised) == AddEvents(DecideFor(cfg, cache.tagsOf, cache.tagKey), g0, evs[..j])
      invariant cache.Valid()
    {
      assert evs[..j + 1][..j] == evs[..j];
      var d := DecideEvent(cfg, evs[j], cache);
      if d.Fail? {
        raised := true;
      } else {
        g := Apply(g, d);
      }
      j := j + 1;
    }
    if raised {
      RaisedStays(DecideFor(cfg, cache.tagsOf, cache.tagKey), g0, evs, j);
    } else {
      assert evs[..j] == evs;
    }
  }

  /** The first phase of `lambda_handler`: group every message of the batch. */
  method GroupRecords(cfg: Config, records: seq<SqsRecord>, cache: CriticalityCache)
    returns (g: Grouping, failed: bool)
    requires cache.Valid()
    modifies cache
    ensures cache.Valid()
    ensures (g, failed) == AddRecords(DecideFor(cfg, cache.tagsOf, cache.tagKey), Grouping([], map[], map[]), records)
  {
    var empty := Grouping([], map[], map[]);
    g, failed := empty, false;
    var i := 0;
    while i < |records|
      invariant 0 <= i <= |records|
      invariant (g, failed) == AddRecords(DecideFor(cfg, cache.tagsOf, cache.tagKey), empty, records[..i])
      invariant cache.Valid()
    {
      assert records[..i + 1][..i] == records[..i];
      var body := records[i].body;
      if body.None? {
        failed := true;
      } else {
        var raised;
        g, raised := GroupEvents(cfg, body.value, cache, g);
        failed := failed || raised;
      }
      i := i + 1;
    }
    assert records[..i] == records;
  }

  /** Where the manifest of the `k`-th group is written: its run id is the clock's time for the group. */
  ghost function GroupManifestLoc(cfg: Config, g: Grouping, k: nat, clock: GroupKey -> DateTime): Loc
    requires WellFormed(g) && k < |g.order|
  {
    var gk := g.order[k];
    Loc(cfg.backupBucket, ManifestKey(gk.criticality, cfg.initiative, gk.bucket,
                                      WindowLabel(g.starts[gk]), RunStamp(clock(gk))))
  }

  /** The manifest body of the `k`-th group. */
  ghost function GroupManifestBody(g: Grouping, k: nat): string
    requires WellFormed(g) && k < |g.order|
  {
    ManifestBody(g.order[k].bucket, g.members[g.order[k]])
  }

  /** The `create_job` request for the `k`-th group, once its manifest is stored. */
  ghost function GroupRequest(cfg: Config, g: Grouping, k: nat, clock: GroupKey -> DateTime,
                              etagOf: string -> string): JobRequest
    requires WellFormed(g) && k < |g.order|
  {
    var gk := g.order[k];
    var w := g.starts[gk];
    var runId := RunStamp(clock(gk));
    JobRequest(
      DataPrefix(gk.criticality, cfg.generation, cfg.initiative, gk.bucket, w, runId),
      ReportsPrefix(gk.criticality, cfg.initiative, gk.bucket, WindowLabel(w), runId),
      ObjectArn(cfg.backupBucket, GroupManifestLoc(cfg, g, k, clock).key),
      StripQuotes(etagOf(GroupManifestBody(g, k))))
  }

  /**
   * What submitting the `k`-th group gives: no job when the backup bucket
   * refuses the manifest or S3 Batch Operations refuses the job, otherwise
   * the job of that group.
   */
  ghost function GroupJob(cfg: Config, g: Grouping, k: nat, clock: GroupKey -> DateTime,
                          reachable: set<string>, etagOf: string -> string,
                          submit: JobRequest -> Option<string>): (r: Option<Job>)
    requires WellFormed(g) && k < |g.order|
    ensures r.Some? ==> JobFor(r.value, g, k)
    ensures r.Some? <==> cfg.backupBucket in reachable && submit(GroupRequest(cfg, g, k, clock, etagOf)).Some?
  {
    var gk := g.order[k];
    if cfg.backupBucket !in reachable then None
    else match submit(GroupRequest(cfg, g, k, clock, etagOf))
      case None => None
      case Some(id) => Some(Job(id, gk.bucket, gk.criticality, gk.window, |g.members[gk]|))
  }

  /** Each group's outcome as one function of its position, for the loop over the groups. */
  ghost function Outcomes(cfg: Config, g: Grouping, clock: GroupKey -> DateTime,
                          reachable: set<string>, etagOf: string -> string,
                          submit: JobRequest -> Option<string>): nat -> Option<Job>
    requires WellFormed(g)
  {
    (k: nat) => if k < |g.order| then GroupJob(cfg, g, k, clock, reachable, etagOf, submit) else None
  }

  /** The jobs of the first `n` groups, in insertion order; empty and failed groups contribute none. */
  ghost function SubmittedJobs(g: Grouping, n: nat, outcome: nat -> Option<Job>): seq<Job>
    requires WellFormed(g) && n <= |g.order|
  {
    if n == 0 then []
    else
      SubmittedJobs(g, n - 1, outcome)
      + if g.members[g.order[n - 1]] != {} && outcome(n - 1).Some? then [outcome(n - 1).value] else []
  }

  /** Some non-empty group among the first `n` gets no job. */
  ghost predicate SomeGroupFailed(g: Grouping, n: nat, outcome: nat -> Option<Job>)
    requires WellFormed(g) && n <= |g.order|
  {
    n > 0
    && (SomeGroupFailed(g, n - 1, outcome)
        || (g.members[g.order[n - 1]] != {} && outcome(n - 1).None?))
  }

  /** Each group's manifest location as one function of its position. */
  ghost function ManifestLocs(cfg: Config, g: Grouping, clock: GroupKey -> DateTime): nat -> Loc
    requires WellFormed(g)
  {
    (k: nat) => if k < |g.order| then GroupManifestLoc(cfg, g, k, clock) else Loc(cfg.backupBucket, "")
  }

  /** Each group's manifest body as one function of its position. */
  ghost function ManifestBodies(g: Grouping): nat -> string
    requires WellFormed(g)
  {
    (k: nat) => if k < |g.order| then GroupManifestBody(g, k) else ""
  }

  /**
   * The objects after the manifests of the first `n` groups are uploaded, in
   * order, to the locations `locOf` gives with the bodies `bodyOf` gives;
   * `accepted` is whether the backup bucket takes them.
   */
  ghost function Manifested(objects: map<Loc, string>, g: Grouping, n: nat, accepted: bool,
                            locOf: nat -> Loc, bodyOf: nat -> string): map<Loc, string>
    requires WellFormed(g) && n <= |g.order|
  {
    if n == 0 then objects
    else
      var m := Manifested(objects, g, n - 1, accepted, locOf, bodyOf);
      if g.members[g.order[n - 1]] != {} && accepted then m[locOf(n - 1) := bodyOf(n - 1)]
      else m
  }

  /** The outcome of the `k`-th group in `Outcomes` is its job. */
  lemma OutcomeAt(cfg: Config, g: Grouping, k: nat, clock: GroupKey -> DateTime,
                  reachable: set<string>, etagOf: string -> string, submit: JobRequest -> Option<string>)
    requires WellFormed(g) && k < |g.order|
    ensures Outcomes(cfg, g, clock, reachable, etagOf, submit)(k)
            == GroupJob(cfg, g, k, clock, reachable, etagOf, submit)
  {
  }

  /** With no failed group, there is one job per group, each that group's. */
  lemma {:induction false} SubmittedJobsAll(g: Grouping, n: nat, outcome: nat -> Option<Job>)
    requires WellFormed(g) && n <= |g.order|
    requires forall k :: 0 <= k < n && outcome(k).Some? ==> JobFor(outcome(k).value, g, k)
    requires !SomeGroupFailed(g, n, outcome)
    ensures var jobs := SubmittedJobs(g, n, outcome);
            |jobs| == n && forall i :: 0 <= i < n ==> JobFor(jobs[i], g, i)
  {
    if n > 0 {
      SubmittedJobsAll(g, n - 1, outcome);
      assert g.order[n - 1] in g.members;
    }
  }

  /**
   * When the groups' manifest locations differ, every group's manifest is
   * stored with its body after the uploads, as long as the backup bucket
   * accepts them.
   */
  lemma ManifestsStored(objects: map<Loc, string>, g: Grouping, n: nat, locOf: nat -> Loc,
                          bodyOf: nat -> string)
    requires WellFormed(g) && n <= |g.order|
    requires forall i, j :: 0 <= i < j < n ==> locOf(i) != locOf(j)
    ensures forall k :: 0 <= k < n ==>
              locOf(k) in Manifested(objects, g, n, true, locOf, bodyOf)
              && Manifested(objects, g, n, true, locOf, bodyOf)[locOf(k)] == bodyOf(k)
  {
    forall k | 0 <= k < n
      ensures locOf(k) in Manifested(objects, g, n, true, locOf, bodyOf)
              && Manifested(objects, g, n, true, locOf, bodyOf)[locOf(k)] == bodyOf(k)
    {
      StoredAt(objects, g, n, locOf, bodyOf, k);
    }
  }

  /** The `k`-th group's manifest survives the uploads of the groups after it. */
  lemma {:induction false} StoredAt(objects: map<Loc, string>, g: Grouping, n: nat, locOf: nat -> Loc,
                                    bodyOf: nat -> string, k: nat)
    requires WellFormed(g) && k < n <= |g.order|
    requires forall j :: k < j < n ==> locOf(k) != locOf(j)
    ensures locOf(k) in Manifested(objects, g, n, true, locOf, bodyOf)
            && Manifested(objects, g, n, true, locOf, bodyOf)[locOf(k)] == bodyOf(k)
  {
    UploadAccepted(objects, g, n, locOf, bodyOf);
    if k < n - 1 {
      StoredAt(objects, g, n - 1, locOf, bodyOf, k);
      assert locOf(k) != locOf(n - 1);
    }
  }

  /** An accepted upload stores the `n`-th group's manifest over the earlier ones. */
  lemma UploadAccepted(objects: map<Loc, string>, g: Grouping, n: nat, locOf: nat -> Loc,
                        bodyOf: nat -> string)
    requires WellFormed(g) && 0 < n <= |g.order|
    ensures Manifested(objects, g, n, true, locOf, bodyOf)
            == Manifested(objects, g, n - 1, true, locOf, bodyOf)[locOf(n - 1) := bodyOf(n - 1)]
  {
    assert g.order[n - 1] in g.members;
  }

  /**
   * Different groups write different manifest keys, as long as criticality
   * and bucket fill one key segment each and every group's window is the
   * label of its start.
   */
  lemma ManifestLocsDiffer(cfg: Config, g: Grouping, clock: GroupKey -> DateTime, i: nat, j: nat)
    requires WellFormed(g) && '/' !in cfg.initiative
    requires forall gk :: gk in g.starts ==>
               '/' !in gk.criticality && '/' !in gk.bucket && gk.window == WindowLabel(g.starts[gk])
    requires i < j < |g.order|
    ensures GroupManifestLoc(cfg, g, i, clock) != GroupManifestLoc(cfg, g, j, clock)
  {
    var a, b := g.order[i], g.order[j];
    assert a in g.members && b in g.members;
    var la, lb := WindowLabel(g.starts[a]), WindowLabel(g.starts[b]);
    var ra, rb := RunStamp(clock(a)), RunStamp(clock(b));
    StampsHaveNoSlash(g.starts[a]);
    StampsHaveNoSlash(g.starts[b]);
    StampsHaveNoSlash(clock(a));
    StampsHaveNoSlash(clock(b));
    if ManifestKey(a.criticality, cfg.initiative, a.bucket, la, ra)
       == ManifestKey(b.criticality, cfg.initiative, b.bucket, lb, rb) {
      ManifestKeyInjective(a.criticality, cfg.initiative, a.bucket, la, ra,
                           b.criticality, cfg.initiative, b.bucket, lb, rb);
    }
  }

  /** Under the same conditions every group's manifest is in the store with its body once the uploads are accepted. */
  lemma GroupManifestsStored(objects: map<Loc, string>, cfg: Config, g: Grouping, clock: GroupKey -> DateTime)
    requires WellFormed(g) && '/' !in cfg.initiative
    requires forall gk :: gk in g.starts ==>
               '/' !in gk.criticality && '/' !in gk.bucket && gk.window == WindowLabel(g.starts[gk])
    ensures var stored := Manifested(objects, g, |g.order|, true, ManifestLocs(cfg, g, clock), ManifestBodies(g));
            forall k :: 0 <= k < |g.order| ==>
              GroupManifestLoc(cfg, g, k, clock) in stored
              && stored[GroupManifestLoc(cfg, g, k, clock)] == GroupManifestBody(g, k)
  {
    var locOf := ManifestLocs(cfg, g, clock);
    forall i, j | 0 <= i < j < |g.order|
      ensures locOf(i) != locOf(j)
    {
      LocAt(cfg, g, i, clock);
      LocAt(cfg, g, j, clock);
      ManifestLocsDiffer(cfg, g, clock, i, j);
    }
    ManifestsStored(objects, g, |g.order|, locOf, ManifestBodies(g));
    var stored := Manifested(objects, g, |g.order|, true, locOf, ManifestBodies(g));
    forall k | 0 <= k < |g.order|
      ensures GroupManifestLoc(cfg, g, k, clock) in stored
              && stored[GroupManifestLoc(cfg, g, k, clock)] == GroupManifestBody(g, k)
    {
      LocAt(cfg, g, k, clock);
      assert ManifestBodies(g)(k) == GroupManifestBody(g, k);
    }
  }

  /** The `k`-th entry of `ManifestLocs` is the `k`-th group's manifest location. */
  lemma LocAt(cfg: Config, g: Grouping, k: nat, clock: GroupKey -> DateTime)
    requires WellFormed(g) && k < |g.order|
    ensures ManifestLocs(cfg, g, clock)(k) == GroupManifestLoc(cfg, g, k, clock)
  {
  }

  /** A backup bucket that refuses the uploads leaves the store as it was. */
  lemma {:induction false} RefusedUploadsChangeNothing(objects: map<Loc, string>, g: Grouping, n: nat,
                                                      locOf: nat -> Loc, bodyOf: nat -> string)
    requires WellFormed(g) && n <= |g.order|
    ensures Manifested(objects, g, n, false, locOf, bodyOf) == objects
  {
    if n > 0 {
      RefusedUploadsChangeNothing(objects, g, n - 1, locOf, bodyOf);
    }
  }

  /**
   * The second phase of `lambda_handler`: one manifest and one job per
   * group, in insertion order; a failing group is logged and the groups
   * after it are still submitted.
   * `clock` is the time each group's manifest is written (its run id) and
   * `submit` is S3 Batch Operations, answering a job id or failing.
   */
  method SubmitGroups(cfg: Config, g: Grouping, store: Store, clock: GroupKey -> DateTime,
                      submit: JobRequest -> Option<string>)
    returns (jobs: seq<Job>, failed: bool)
    requires WellFormed(g)
    modifies store
    ensures jobs == SubmittedJobs(g, |g.order|, Outcomes(cfg, g, clock, store.reachable, store.etagOf, submit))
    ensures failed <==> SomeGroupFailed(g, |g.order|, Outcomes(cfg, g, clock, store.reachable, store.etagOf, submit))
    ensures store.objects == Manifested(old(store.objects), g, |g.order|, cfg.backupBucket in store.reachable,
                                       ManifestLocs(cfg, g, clock), ManifestBodies(g))
    ensures !failed ==> |jobs| == |g.order| && forall n :: 0 <= n < |g.order| ==> JobFor(jobs[n], g, n)
  {
    ghost var outcome := Outcomes(cfg, g, clock, store.reachable, store.etagOf, submit);
    ghost var locOf := ManifestLocs(cfg, g, clock);
    jobs, failed := [], false;
    var k := 0;
    while k < |g.order|
      invariant 0 <= k <= |g.order|
      invariant jobs == SubmittedJobs(g, k, outcome)
      invariant failed <==> SomeGroupFailed(g, k, outcome)
      invariant store.objects == Manifested(old(store.objects), g, k, cfg.backupBucket in store.reachable, locOf,
                                             ManifestBodies(g))
    {
      jobs, failed := SubmitNext(cfg, g, k, store, clock, submit, jobs, failed);
      k := k + 1;
    }
    if !failed {
      SubmittedJobsAll(g, |g.order|, outcome);
    }
  }

  /** One turn of the loop over the groups: an empty group is passed over, any other submitted. */
  method SubmitNext(cfg: Config, g: Grouping, k: nat, store: Store, clock: GroupKey -> DateTime,
                    submit: JobRequest -> Option<string>, jobs: seq<Job>, failed: bool)
    returns (jobs': seq<Job>, failed': bool)
    requires WellFormed(g) && k < |g.order|
    modifies store
    ensures var outcome := Outcomes(cfg, g, clock, store.reachable, store.etagOf, submit);
            && (jobs == SubmittedJobs(g, k, outcome) ==> jobs' == SubmittedJobs(g, k + 1, outcome))
            && (failed' <==> failed || (g.members[g.order[k]] != {} && outcome(k).None?))
    ensures store.objects == if g.members[g.order[k]] != {} && cfg.backupBucket in store.reachable
                             then old(store.objects)[ManifestLocs(cfg, g, clock)(k) := ManifestBodies(g)(k)]
                             else old(store.objects)
  {
    jobs', failed' := jobs, failed;
    var keys := g.members[g.order[k]];
    if keys == {} {
      return;
    }
    var job := SubmitGroup(cfg, g, k, store, clock, submit);
    OutcomeAt(cfg, g, k, clock, store.reachable, store.etagOf, submit);
    assert ManifestLocs(cfg, g, clock)(k) == GroupManifestLoc(cfg, g, k, clock);
    assert ManifestBodies(g)(k) == GroupManifestBody(g, k);
    if job.None? {
      failed' := true;
    } else {
      jobs' := jobs + [job.value];
    }
  }

  /** The body of the second phase for the `k`-th group: its manifest, then its job. */
  method SubmitGroup(cfg: Config, g: Grouping, k: nat, store: Store, clock: GroupKey -> DateTime,
                     submit: JobRequest -> Option<string>)
    returns (job: Option<Job>)
    requires WellFormed(g) && k < |g.order|
    modifies store
    ensures job == GroupJob(cfg, g, k, clock, store.reachable, store.etagOf, submit)
    ensures store.objects == if cfg.backupBucket in store.reachable
                             then old(store.objects)[GroupManifestLoc(cfg, g, k, clock) := GroupManifestBody(g, k)]
                             else old(store.objects)
  {
    var gk := g.order[k];
    var keys := g.members[gk];
    var w := g.starts[gk];
    var runId := RunStamp(clock(gk));
    var mkey := ManifestKey(gk.criticality, cfg.initiative, gk.bucket, WindowLabel(w), runId);
    var put := store.Put(Loc(cfg.backupBucket, mkey), ManifestBody(gk.bucket, keys));
    var etag := store.HeadETag(Loc(cfg.backupBucket, mkey));
    if put.Err? || etag.Err? {
      return None;
    }
    var request := JobRequest(
      DataPrefix(gk.criticality, cfg.generation, cfg.initiative, gk.bucket, w, runId),
      ReportsPrefix(gk.criticality, cfg.initiative, gk.bucket, WindowLabel(w), runId),
      ObjectArn(cfg.backupBucket, mkey),
      StripQuotes(etag.value));
    assert request == GroupRequest(cfg, g, k, clock, store.etagOf);
    var jobId := submit(request);
    if jobId.None? {
      return None;
    }
    job := Some(Job(jobId.value, gk.bucket, gk.criticality, gk.window, |keys|));
  }

  /**
   * `lambda_handler`: raise if any message or group failed, else report the
   * jobs. Every group's manifest is uploaded whatever happens to the others.
   */
  method Handle(cfg: Config, records: seq<SqsRecord>, cache: CriticalityCache, store: Store,
                clock: GroupKey -> DateTime, submit: JobRequest -> Option<string>)
    returns (r: Result<Response>)
    requires cache.Valid()
    modifies cache, store
    ensures cache.Valid()
    ensures var (g, failed) := AddRecords(DecideFor(cfg, cache.tagsOf, cache.tagKey),
                                          Grouping([], map[], map[]), records);
            WellFormed(g)
            && (r.Ok? <==> !failed && !SomeGroupFailed(g, |g.order|, Outcomes(cfg, g, clock, store.reachable, store.etagOf, submit)))
            && (r.Err? ==> r.error == RuntimeError("Incremental backup failed processing one or more records"))
            && store.objects == Manifested(old(store.objects), g, |g.order|, cfg.backupBucket in store.reachable,
                                           ManifestLocs(cfg, g, clock), ManifestBodies(g))
            && (r.Ok? ==> r.value.jobs == SubmittedJobs(g, |g.order|, Outcomes(cfg, g, clock, store.reachable, store.etagOf, submit))
                          && |r.value.jobs| == |g.order|
                          && (forall i :: 0 <= i < |g.order| ==> JobFor(r.value.jobs[i], g, i))
                          && r.value.totalObjects == TotalObjects(r.value.jobs)
                          && r.value.backupBucket == cfg.backupBucket
                          && (r.value.status == "NO_OBJECTS" <==> r.value.jobs == [])
                          && (r.value.status == "BATCH_SUBMITTED" <==> r.value.jobs != []))
  {
    var g, failed := GroupRecords(cfg, records, cache);
    AddRecordsWellFormed(DecideFor(cfg, cache.tagsOf, cache.tagKey), Grouping([], map[], map[]), records);
    var jobs, jobFailed := SubmitGroups(cfg, g, store, clock, submit);
    if failed || jobFailed {
      return Err(RuntimeError("Incremental backup failed processing one or more records"));
    }
    var status := if jobs == [] then "NO_OBJECTS" else "BATCH_SUBMITTED";
    r := Ok(Response(status, jobs, cfg.backupBucket, TotalObjects(jobs)));
  }
}
