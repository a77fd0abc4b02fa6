/**
 * Restoring objects from the central bucket into their source bucket. The
 * restore finds the newest manifest of a window (or of the bucket), the
 * newest data prefix under the window's hour, and copies every manifest row
 * of the source bucket from that prefix back to its original key, counting
 * restored, skipped and failed rows, up to `max_objects`.
 */
module RestoreFromBackup {
  import opened Base
  import opened Strings
  import opened Stamps
  import opened ObjectStore
  import opened Listings
  import LaunchBatchJob

  /** CENTRAL_BUCKET and INITIATIVE. */
  datatype Env = Env(central: string, initiative: string)

  // ---------------------------------------------------------------------
  // window labels and paths

  /** Python's `s[i:j]` for `0 <= i <= j`: indices past the end are clamped. */
  function PySlice(s: string, i: nat, j: nat): (r: string)
    requires i <= j
    ensures |r| <= j - i
    ensures j <= |s| ==> r == s[i..j]
  {
    if |s| <= i then "" else if |s| <= j then s[i..] else s[i..j]
  }

  datatype LabelFields = LabelFields(year: string, month: string, day: string, hour: string)

  /** `label[0:4], label[4:6], label[6:8], label[9:11]`. */
  function FieldsOf(windowLabel: string): LabelFields
  {
    LabelFields(PySlice(windowLabel, 0, 4), PySlice(windowLabel, 4, 6), PySlice(windowLabel, 6, 8), PySlice(windowLabel, 9, 11))
  }

  /** The label built from the event's date, always at minute 00. */
  function EventLabel(year: string, month: string, day: string, hour: string): string
  {
    year + month + day + "T" + hour + "00Z"
  }

  /** A label built from a four-digit year and two-digit month, day and hour slices back into them. */
  lemma EventLabelRoundTrip(year: string, month: string, day: string, hour: string)
    requires |year| == 4 && |month| == 2 && |day| == 2 && |hour| == 2
    ensures FieldsOf(EventLabel(year, month, day, hour)) == LabelFields(year, month, day, hour)
  {
    var l := EventLabel(year, month, day, hour);
    assert l[0..4] == year && l[4..6] == month && l[6..8] == day && l[9..11] == hour;
  }

  /** The window labels the pipelines write slice back into the hour they name. */
  lemma WindowLabelFields(t: DateTime)
    ensures FieldsOf(WindowLabel(t)) == LabelFields(Pad(t.year, 4), Pad(t.month, 2), Pad(t.day, 2), Pad(t.hour, 2))
  {
    var l := WindowLabel(t);
    assert l[0..4] == Pad(t.year, 4) && l[4..6] == Pad(t.month, 2) && l[6..8] == Pad(t.day, 2);
    assert l[9..11] == Pad(t.hour, 2);
  }

  function ManifestsPrefix(env: Env, source: string, criticality: string, backupType: string, windowLabel: string)
    : string
  {
    Join(["manifests", "criticality=" + criticality, "backup_type=" + backupType, "initiative=" + env.initiative,
          "bucket=" + source, "window=" + windowLabel], '/') + "/"
  }

  /** Where the manifests of a bucket are looked for when no date is given. */
  function ManifestsRoot(env: Env, source: string, criticality: string, backupType: string): string
  {
    Join(["manifests", "criticality=" + criticality, "backup_type=" + backupType, "initiative=" + env.initiative,
          "bucket=" + source], '/') + "/"
  }

  function BaseSegments(env: Env, source: string, criticality: string, backupType: string, generation: string)
    : seq<string>
  {
    ["backup", "criticality=" + criticality, "backup_type=" + backupType, "generation=" + generation,
     "initiative=" + env.initiative, "bucket=" + source]
  }

  /** The data of a window's hour: the run prefixes lie below it. */
  function DataBasePrefix(env: Env, source: string, criticality: string, backupType: string, generation: string,
                          windowLabel: string): string
  {
    var f := FieldsOf(windowLabel);
    Join(BaseSegments(env, source, criticality, backupType, generation)
         + ["year=" + f.year, "month=" + f.month, "day=" + f.day, "hour=" + f.hour], '/') + "/"
  }

  /**
   * The data a launched job writes lies below the base prefix the restore
   * derives from the window label of the same hour.
   */
  lemma RestoreFindsLaunchedData(env: Env, source: string, criticality: string, backupType: string,
                                 generation: string, t: DateTime)
    ensures StartsWith(LaunchBatchJob.DataPrefix(criticality, backupType, generation, env.initiative, source, t),
                       DataBasePrefix(env, source, criticality, backupType, generation, WindowLabel(t)))
  {
    WindowLabelFields(t);
    var hour := LaunchBatchJob.HourSegments(t);
    var base := BaseSegments(env, source, criticality, backupType, generation) + hour;
    assert LaunchBatchJob.DataSegments(criticality, backupType, generation, env.initiative, source, t)
           == base + ["timestamp=" + RunStamp(t)];
    JoinAppend(base, ["timestamp=" + RunStamp(t)], '/');
    assert Join(base, '/') + ['/'] == Join(base, '/') + "/";
  }

  // ---------------------------------------------------------------------
  // the newest data prefix

  /** What a common prefix is ranked by: the text after `window=`, else after `timestamp=`. */
  function PrefixValue(p: string): string
  {
    if Contains(p, "window=") then AfterLast(RStrip(p, {'/'}), "window=")
    else if Contains(p, "timestamp=") then AfterLast(RStrip(p, {'/'}), "timestamp=")
    else ""
  }

  /** `ps[i]` is the first of the prefixes with the greatest non-empty value. */
  predicate LatestAt(ps: seq<string>, value: string -> string, i: int)
  {
    0 <= i < |ps| && value(ps[i]) != ""
    && (forall j :: 0 <= j < |ps| && value(ps[j]) != "" ==> !Less(value(ps[i]), value(ps[j])))
    && (forall j :: 0 <= j < i && value(ps[j]) != "" ==> Less(value(ps[j]), value(ps[i])))
  }

  /** The running-maximum loop of `_latest_data_prefix`: replaced only by a strictly greater value. */
  method Latest(ps: seq<string>, value: string -> string) returns (best: Option<nat>)
    ensures best.None? <==> forall j :: 0 <= j < |ps| ==> value(ps[j]) == ""
    ensures best.Some? ==> LatestAt(ps, value, best.value)
    ensures best == LatestOf(ps, value)
  {
    best := None;
    var i := 0;
    while i < |ps|
      invariant 0 <= i <= |ps|
      invariant best.None? <==> forall j :: 0 <= j < i ==> value(ps[j]) == ""
      invariant best.Some? ==> LatestAt(ps[..i], value, best.value)
    {
      var v := value(ps[i]);
      assert ps[..i + 1][..i] == ps[..i];
      if v != "" && (best.None? || Less(value(ps[best.value]), v)) {
        if best.Some? {
          NewLatest(ps[..i], value, best.value, v);
        }
        forall j | 0 <= j < i + 1 && value(ps[j]) != ""
          ensures !Less(v, value(ps[j]))
        {
          if j == i {
            LessIrreflexive(v);
          } else {
            LessAsymmetric(v, value(ps[j]));
          }
        }
        best := Some(i);
      }
      i := i + 1;
    }
    assert ps[..i] == ps;
    if best.Some? {
      LatestUnique(ps, value, best.value, LatestOf(ps, value).value);
    }
  }

  /** At most one position is the first of the prefixes with the greatest value. */
  lemma LatestUnique(ps: seq<string>, value: string -> string, i: int, k: int)
    requires LatestAt(ps, value, i) && LatestAt(ps, value, k)
    ensures i == k
  {
  }

  /** The first of the prefixes with the greatest non-empty value, if any carries one. */
  ghost function LatestOf(ps: seq<string>, value: string -> string): (r: Option<nat>)
    ensures r.Some? ==> LatestAt(ps, value, r.value)
  {
    if exists i :: LatestAt(ps, value, i) then
      var i :| LatestAt(ps, value, i);
      Some(i)
    else None
  }

  /** A value greater than the running greatest is greater than every value before it. */
  lemma NewLatest(ps: seq<string>, value: string -> string, b: nat, v: string)
    requires LatestAt(ps, value, b) && Less(value(ps[b]), v)
    ensures forall j :: 0 <= j < |ps| && value(ps[j]) != "" ==> Less(value(ps[j]), v)
  {
    forall j | 0 <= j < |ps| && value(ps[j]) != ""
      ensures Less(value(ps[j]), v)
    {
      LessTotal(value(ps[j]), value(ps[b]));
      if value(ps[j]) != value(ps[b]) {
        LessTransitive(value(ps[j]), value(ps[b]), v);
      }
    }
  }

  /** `_latest_data_prefix` given the common prefixes listed; a failed listing gives none. */
  method LatestDataPrefix(listing: Result<seq<string>>) returns (r: Option<string>)
    ensures listing.Err? ==> r.None?
    ensures listing.Ok? ==> (r.None? <==> forall j :: 0 <= j < |listing.value| ==> PrefixValue(listing.value[j]) == "")
    ensures listing.Ok? && r.Some? ==> exists i :: LatestAt(listing.value, PrefixValue, i) && listing.value[i] == r.value
    ensures r == LatestPrefixIn(listing)
  {
    if listing.Err? {
      return None;
    }
    var best := Latest(listing.value, PrefixValue);
    if best.None? {
      return None;
    }
    r := Some(listing.value[best.value]);
  }

  /** The prefix `_latest_data_prefix` answers for a listing. */
  ghost function LatestPrefixIn(listing: Result<seq<string>>): Option<string>
  {
    if listing.Err? then None
    else
      match LatestOf(listing.value, PrefixValue)
        case None => None
        case Some(i) => Some(listing.value[i])
  }

  // ---------------------------------------------------------------------
  // the newest manifest

  predicate IsCsv(key: string)
  {
    EndsWith(key, ".csv")
  }

  /** `_find_latest_manifest`: a failed listing raises. */
  method FindLatestManifest(listing: Result<seq<ListedObject>>) returns (r: Result<Option<string>>)
    ensures listing.Err? ==> r == Err(listing.error)
    ensures listing.Ok? ==> r.Ok? && (r.value.None? <==> forall j :: 0 <= j < |listing.value| ==> !IsCsv(listing.value[j].key))
    ensures listing.Ok? && r.Ok? && r.value.Some? ==>
              exists i :: NewestAt(listing.value, IsCsv, i) && listing.value[i].key == r.value.value
    ensures r == NewestManifestIn(listing)
  {
    if listing.Err? {
      return Err(listing.error);
    }
    var found := Newest(listing.value, IsCsv);
    if found.None? {
      return Ok(None);
    }
    r := Ok(Some(listing.value[found.value].key));
  }

  /** The key `_find_latest_manifest` answers for a listing, or the listing's error. */
  ghost function NewestManifestIn(listing: Result<seq<ListedObject>>): Result<Option<string>>
  {
    if listing.Err? then Err(listing.error)
    else
      match NewestOf(listing.value, IsCsv)
        case None => Ok(None)
        case Some(i) => Ok(Some(listing.value[i].key))
  }

  /** The label of a manifest key: the text after the first `window=` segment, or "". */
  function WindowOfKey(parts: seq<string>): (r: string)
    ensures (forall j :: 0 <= j < |parts| ==> !StartsWith(parts[j], "window=")) ==> r == ""
  {
    if parts == [] then ""
    else if StartsWith(parts[0], "window=") then AfterLast(parts[0], "window=")
    else WindowOfKey(parts[1..])
  }

  // ---------------------------------------------------------------------
  // the copy loop

  /** `(row[0], row[1])` for each manifest row with at least two fields. */
  function ManifestRows(rows: seq<seq<string>>): (r: seq<(string, string)>)
    ensures |r| <= |rows|
  {
    if rows == [] then []
    else
      var rest := ManifestRows(rows[1..]);
      if |rows[0]| >= 2 then [(rows[0][0], rows[0][1])] + rest else rest
  }

  /** Everything the copy loop depends on besides the store. */
  datatype RestoreCtx = RestoreCtx(central: string, reachable: set<string>, source: string, dataPrefix: string,
                                   filter: string, dryRun: bool, maxObjects: int)

  datatype Tally = Tally(objects: map<Loc, string>, restored: nat, skipped: nat, errors: nat)

  /** Rows of another bucket, or outside a non-empty prefix filter, are skipped. */
  predicate Selected(ctx: RestoreCtx, bucket: string, key: string)
  {
    bucket == ctx.source && (ctx.filter == "" || StartsWith(key, ctx.filter))
  }

  /** One row that is selected: copied (or counted, on a dry run) or counted as an error. */
  function RestoreOne(ctx: RestoreCtx, key: string, t: Tally): Tally
  {
    if ctx.dryRun then t.(restored := t.restored + 1)
    else
      var src := Loc(ctx.central, ctx.dataPrefix + key);
      var dst := Loc(ctx.source, key);
      if Lookup(t.objects, ctx.reachable, src).Ok? && dst.bucket in ctx.reachable
      then t.(objects := t.objects[dst := t.objects[src]], restored := t.restored + 1)
      else t.(errors := t.errors + 1)
  }

  /** The loop over the manifest rows, stopping once `restored >= max_objects`. */
  function RestoreRows(ctx: RestoreCtx, rows: seq<(string, string)>, t: Tally): Tally
    decreases |rows|
  {
    if rows == [] then t
    else if !Selected(ctx, rows[0].0, rows[0].1) then RestoreRows(ctx, rows[1..], t.(skipped := t.skipped + 1))
    else
      var t' := RestoreOne(ctx, rows[0].1, t);
      if t'.restored >= ctx.maxObjects then t' else RestoreRows(ctx, rows[1..], t')
  }

  /** A positive `max_objects` bounds the restored count. */
  lemma {:induction false} RestoredWithinMax(ctx: RestoreCtx, rows: seq<(string, string)>, t: Tally)
    requires t.restored < ctx.maxObjects
    ensures RestoreRows(ctx, rows, t).restored <= ctx.maxObjects
    decreases |rows|
  {
    if rows != [] {
      if !Selected(ctx, rows[0].0, rows[0].1) {
        RestoredWithinMax(ctx, rows[1..], t.(skipped := t.skipped + 1));
      } else {
        var t' := RestoreOne(ctx, rows[0].1, t);
        if t'.restored < ctx.maxObjects {
          RestoredWithinMax(ctx, rows[1..], t');
        }
      }
    }
  }

  /** Every row the loop reaches is counted exactly once, and without a stop every row is reached. */
  lemma {:induction false} RowsCounted(ctx: RestoreCtx, rows: seq<(string, string)>, t: Tally)
    ensures var r := RestoreRows(ctx, rows, t);
            r.restored + r.skipped + r.errors <= t.restored + t.skipped + t.errors + |rows|
    ensures t.restored + |rows| < ctx.maxObjects ==>
              var r := RestoreRows(ctx, rows, t);
              r.restored + r.skipped + r.errors == t.restored + t.skipped + t.errors + |rows|
    decreases |rows|
  {
    if rows != [] {
      if !Selected(ctx, rows[0].0, rows[0].1) {
        RowsCounted(ctx, rows[1..], t.(skipped := t.skipped + 1));
      } else {
        RowsCounted(ctx, rows[1..], RestoreOne(ctx, rows[0].1, t));
      }
    }
  }

  /** `loc` holds the same object, or is absent, in both states. */
  predicate SameAt(before: map<Loc, string>, after: map<Loc, string>, loc: Loc)
  {
    (loc in before <==> loc in after) && (loc in before ==> before[loc] == after[loc])
  }

  /**
   * Only keys of selected rows in the source bucket are written, and a dry
   * run writes nothing.
   */
  lemma {:induction false} RestoreTouchesOnlySelected(ctx: RestoreCtx, rows: seq<(string, string)>, t: Tally)
    ensures forall loc: Loc :: !Selected(ctx, loc.bucket, loc.key) ==> SameAt(t.objects, RestoreRows(ctx, rows, t).objects, loc)
    ensures ctx.dryRun ==> RestoreRows(ctx, rows, t).objects == t.objects
    decreases |rows|
  {
    if rows != [] {
      if !Selected(ctx, rows[0].0, rows[0].1) {
        RestoreTouchesOnlySelected(ctx, rows[1..], t.(skipped := t.skipped + 1));
      } else {
        RestoreTouchesOnlySelected(ctx, rows[1..], RestoreOne(ctx, rows[0].1, t));
      }
    }
  }

  /** The copy loop of the handler, against the store. */
  method RestoreLoop(store: Store, ctx: RestoreCtx, rows: seq<(string, string)>) returns (t: Tally)
    requires ctx.reachable == store.reachable
    modifies store
    ensures t == RestoreRows(ctx, rows, Tally(old(store.objects), 0, 0, 0))
    ensures store.objects == t.objects
  {
    t := Tally(store.objects, 0, 0, 0);
    var j := 0;
    while j < |rows|
      invariant 0 <= j <= |rows| && t.objects == store.objects
      invariant RestoreRows(ctx, rows, Tally(old(store.objects), 0, 0, 0)) == RestoreRows(ctx, rows[j..], t)
    {
      assert rows[j..][1..] == rows[j + 1..];
      var (bucket, key) := rows[j];
      if !Selected(ctx, bucket, key) {
        t := t.(skipped := t.skipped + 1);
      } else {
        if ctx.dryRun {
          t := t.(restored := t.restored + 1);
        } else {
          var copied := store.Copy(Loc(ctx.central, ctx.dataPrefix + key), Loc(ctx.source, key));
          if copied.Ok? {
            t := t.(objects := store.objects, restored := t.restored + 1);
          } else {
            t := t.(errors := t.errors + 1);
          }
        }
        if t.restored >= ctx.maxObjects {
          return;
        }
      }
      j := j + 1;
    }
  }

  // ---------------------------------------------------------------------
  // the handler

  datatype RestoreEvent = RestoreEvent(sourceBucket: Option<string>, criticality: Option<string>,
                                       backupType: Option<string>, generation: Option<string>,
                                       prefix: Option<string>, maxObjects: Option<int>, dryRun: Option<bool>,
                                       year: Option<string>, month: Option<string>, day: Option<string>,
                                       hour: Option<string>)

  datatype RestoreResult = RestoreResult(status: string, sourceBucket: string, criticality: string,
                                         backupType: string, generation: string, manifestKey: string,
                                         dataPrefix: string, restored: nat, skipped: nat, errors: nat,
                                         maxObjects: int)

  /** `int(max_objects or 10000)`: absent or zero means 10000. */
  function MaxObjects(given: Option<int>): (r: int)
    ensures r != 0
    ensures given.Some? && given.value != 0 ==> r == given.value
  {
    if given.None? || given.value == 0 then 10000 else given.value
  }

  function Get(o: Option<string>, default: string): string
  {
    if o.Some? then o.value else default
  }

  predicate HasDate(e: RestoreEvent)
  {
    Truthy(e.year) && Truthy(e.month) && Truthy(e.day) && Truthy(e.hour)
  }

  /** Where the manifest is looked for: the event's window, or the whole bucket. */
  function ManifestSearchPrefix(env: Env, e: RestoreEvent): string
    requires e.sourceBucket.Some?
  {
    var c := Get(e.criticality, "MenosCritico");
    var bt := Get(e.backupType, "incremental");
    if HasDate(e) then ManifestsPrefix(env, e.sourceBucket.value, c, bt,
                                       EventLabel(e.year.value, e.month.value, e.day.value, e.hour.value))
    else ManifestsRoot(env, e.sourceBucket.value, c, bt)
  }

  /**
   * The window label a run resolves to: the event's date, else the
   * `window=` segment of the manifest key, else the manifest's LastModified
   * (whose head request can fail).
   */
  function LabelFor(e: RestoreEvent, manifestKey: string, headModified: string -> Result<DateTime>): Result<string>
  {
    if HasDate(e) then Ok(EventLabel(e.year.value, e.month.value, e.day.value, e.hour.value))
    else if WindowOfKey(Split(manifestKey, '/')) != "" then Ok(WindowOfKey(Split(manifestKey, '/')))
    else
      match headModified(manifestKey)
        case Ok(t) => Ok(WindowLabel(t))
        case Err(err) => Err(err)
  }

  /**
   * The window label of the run: the event's date, else the `window=`
   * segment of the manifest key, else the manifest's LastModified.
   */
  method ResolveLabel(e: RestoreEvent, manifestKey: string, headModified: string -> Result<DateTime>)
    returns (r: Result<string>)
    ensures r == LabelFor(e, manifestKey, headModified)
    ensures HasDate(e) ==> r == Ok(EventLabel(e.year.value, e.month.value, e.day.value, e.hour.value))
    ensures !HasDate(e) && WindowOfKey(Split(manifestKey, '/')) != "" ==> r == Ok(WindowOfKey(Split(manifestKey, '/')))
    ensures !HasDate(e) && WindowOfKey(Split(manifestKey, '/')) == "" ==>
              r == (match headModified(manifestKey)
                      case Ok(t) => Ok(WindowLabel(t))
                      case Err(err) => Err(err))
  {
    if HasDate(e) {
      return Ok(EventLabel(e.year.value, e.month.value, e.day.value, e.hour.value));
    }
    var windowLabel := WindowOfKey(Split(manifestKey, '/'));
    if windowLabel != "" {
      return Ok(windowLabel);
    }
    var head := headModified(manifestKey);
    if head.Err? {
      return Err(head.error);
    }
    r := Ok(WindowLabel(head.value));
  }

  /** The RuntimeError of a missing manifest: with a date it names the prefix searched. */
  function NoManifestMessage(env: Env, e: RestoreEvent): string
    requires e.sourceBucket.Some?
  {
    if HasDate(e)
    then "No se encontro manifest bajo s3://" + env.central + "/" + ManifestSearchPrefix(env, e)
         + ". Verifica parametros (bucket/criticidad/tipo/generacion/fecha)."
    else "No se encontro ningun manifest para los parametros indicados"
  }

  /** The RuntimeError of a missing data prefix: with a date it names the base prefix searched. */
  function NoDataMessage(env: Env, e: RestoreEvent, dataBase: string): string
  {
    if HasDate(e) then "No se encontro prefijo de datos con timestamp bajo s3://" + env.central + "/" + dataBase + "."
    else "No se encontro un prefijo de datos con timestamp para restaurar"
  }

  /**
   * What the handler's lookups find: the newest manifest, the window label
   * it resolves to and the newest data prefix of that window, or the error
   * of the first lookup that fails.
   */
  ghost function Located(env: Env, e: RestoreEvent, source: string, criticality: string, backupType: string,
                         generation: string, listObjects: string -> Result<seq<ListedObject>>,
                         listPrefixes: string -> Result<seq<string>>, headModified: string -> Result<DateTime>)
    : Result<(string, string)>
    requires e.sourceBucket.Some?
  {
    var found := NewestManifestIn(listObjects(ManifestSearchPrefix(env, e)));
    if found.Err? then Err(found.error)
    else if found.value.None? then Err(RuntimeError(NoManifestMessage(env, e)))
    else
      var windowLabel := LabelFor(e, found.value.value, headModified);
      if windowLabel.Err? then Err(windowLabel.error)
      else
        var dataBase := DataBasePrefix(env, source, criticality, backupType, generation, windowLabel.value);
        match LatestPrefixIn(listPrefixes(dataBase))
          case None => Err(RuntimeError(NoDataMessage(env, e, dataBase)))
          case Some(p) => Ok((found.value.value, p))
  }

  /**
   * `lambda_handler`. `listObjects` and `listPrefixes` answer the two
   * listings, `headModified` gives a key's LastModified, and `decode` is the
   * CSV reader.
   */
  method Handle(env: Env, e: RestoreEvent, store: Store, listObjects: string -> Result<seq<ListedObject>>,
                listPrefixes: string -> Result<seq<string>>, headModified: string -> Result<DateTime>,
                decode: string -> seq<seq<string>>) returns (r: Result<RestoreResult>)
    modifies store
    ensures !Truthy(e.sourceBucket) ==> r.Err? && r.error.ValueError?
    ensures r.Err? ==> store.objects == old(store.objects)
    ensures Truthy(e.sourceBucket) ==>
              var loc := Located(env, e, e.sourceBucket.value, Get(e.criticality, "MenosCritico"),
                                 Get(e.backupType, "incremental"), Get(e.generation, "son"),
                                 listObjects, listPrefixes, headModified);
              (r.Ok? <==> loc.Ok? && old(store.Get(Loc(env.central, loc.value.0))).Ok?)
              && (loc.Err? ==> r == Err(loc.error))
              && (loc.Ok? && old(store.Get(Loc(env.central, loc.value.0))).Err?
                  ==> r == Err(old(store.Get(Loc(env.central, loc.value.0))).error))
              && (r.Ok? ==> r.value.manifestKey == loc.value.0 && r.value.dataPrefix == loc.value.1
                            && r.value.criticality == Get(e.criticality, "MenosCritico")
                            && r.value.backupType == Get(e.backupType, "incremental")
                            && r.value.generation == Get(e.generation, "son"))
    ensures Truthy(e.sourceBucket) && NewestManifestIn(listObjects(ManifestSearchPrefix(env, e))) == Ok(None) ==>
              r == Err(RuntimeError(NoManifestMessage(env, e)))
    ensures r.Ok? ==>
              var out := r.value;
              var listed := listObjects(ManifestSearchPrefix(env, e));
              Truthy(e.sourceBucket) && out.sourceBucket == e.sourceBucket.value
              && out.status == (if DryRunOf(e.dryRun) then "DRY_RUN" else "RESTORE_COMPLETED")
              && out.maxObjects == MaxObjects(e.maxObjects)
              && listed.Ok? && (exists i :: NewestAt(listed.value, IsCsv, i) && listed.value[i].key == out.manifestKey)
              && (exists windowLabel :: var ps := listPrefixes(DataBasePrefix(env, out.sourceBucket, out.criticality,
                                                                         out.backupType, out.generation, windowLabel));
                                  ps.Ok? && exists i :: LatestAt(ps.value, PrefixValue, i) && ps.value[i] == out.dataPrefix)
              && old(store.Get(Loc(env.central, out.manifestKey))).Ok?
              && var rows := ManifestRows(decode(old(store.Get(Loc(env.central, out.manifestKey))).value));
                 var ctx := RestoreCtx(env.central, store.reachable, out.sourceBucket, out.dataPrefix,
                                       OrElse(e.prefix, ""), DryRunOf(e.dryRun), out.maxObjects);
                 var t := RestoreRows(ctx, rows, Tally(old(store.objects), 0, 0, 0));
                 store.objects == t.objects && out.restored == t.restored && out.skipped == t.skipped
                 && out.errors == t.errors
  {
    var criticality := Get(e.criticality, "MenosCritico");
    var backupType := Get(e.backupType, "incremental");
    var generation := Get(e.generation, "son");
    var filter := OrElse(e.prefix, "");
    var maxObjects := MaxObjects(e.maxObjects);
    var dryRun := DryRunOf(e.dryRun);
    if !Truthy(e.sourceBucket) {
      return Err(ValueError("source_bucket es requerido"));
    }
    var source := e.sourceBucket.value;
    var located := Locate(env, e, source, criticality, backupType, generation, listObjects, listPrefixes,
                          headModified);
    if located.Err? {
      return Err(located.error);
    }
    var (manifestKey, dataPrefix) := located.value;
    var body := store.Get(Loc(env.central, manifestKey));
    if body.Err? {
      return Err(body.error);
    }
    var rows := ManifestRows(decode(body.value));
    var ctx := RestoreCtx(env.central, store.reachable, source, dataPrefix, filter, dryRun, maxObjects);
    var t := RestoreLoop(store, ctx, rows);
    r := Ok(RestoreResult(if dryRun then "DRY_RUN" else "RESTORE_COMPLETED", source, criticality, backupType,
                          generation, manifestKey, dataPrefix, t.restored, t.skipped, t.errors, maxObjects));
  }

  /**
   * The lookups of the handler before anything is read from the store: the
   * newest manifest, the window it belongs to and the newest data prefix of
   * that window.
   */
  method Locate(env: Env, e: RestoreEvent, source: string, criticality: string, backupType: string,
                generation: string, listObjects: string -> Result<seq<ListedObject>>,
                listPrefixes: string -> Result<seq<string>>, headModified: string -> Result<DateTime>)
    returns (r: Result<(string, string)>)
    requires e.sourceBucket.Some?
    ensures r == Located(env, e, source, criticality, backupType, generation, listObjects, listPrefixes, headModified)
    ensures var found := NewestManifestIn(listObjects(ManifestSearchPrefix(env, e)));
            && (found == Ok(None) ==> r == Err(RuntimeError(NoManifestMessage(env, e))))
            && (r.Ok? <==> found.Ok? && found.value.Some? && LabelFor(e, found.value.value, headModified).Ok?
                           && LatestPrefixIn(listPrefixes(DataBasePrefix(env, source, criticality, backupType, generation,
                                                                         LabelFor(e, found.value.value, headModified).value))).Some?)
    ensures r.Ok? ==>
              var listed := listObjects(ManifestSearchPrefix(env, e));
              listed.Ok? && (exists i :: NewestAt(listed.value, IsCsv, i) && listed.value[i].key == r.value.0)
              && (exists windowLabel :: var ps := listPrefixes(DataBasePrefix(env, source, criticality,
                                                                             backupType, generation, windowLabel));
                                  ps.Ok? && exists i :: LatestAt(ps.value, PrefixValue, i) && ps.value[i] == r.value.1)
  {
    var found := FindLatestManifest(listObjects(ManifestSearchPrefix(env, e)));
    if found.Err? {
      return Err(found.error);
    }
    if found.value.None? {
      return Err(RuntimeError(NoManifestMessage(env, e)));
    }
    var manifestKey := found.value.value;
    var windowLabel := ResolveLabel(e, manifestKey, headModified);
    if windowLabel.Err? {
      return Err(windowLabel.error);
    }
    var dataPrefix := LatestDataPrefix(listPrefixes(DataBasePrefix(env, source, criticality, backupType,
                                                                   generation, windowLabel.value)));
    if dataPrefix.None? {
      return Err(RuntimeError(NoDataMessage(env, e, DataBasePrefix(env, source, criticality, backupType, generation,
                                                                   windowLabel.value))));
    }
    ghost var ps := listPrefixes(DataBasePrefix(env, source, criticality, backupType, generation, windowLabel.value));
    assert ps.Ok? && exists i :: LatestAt(ps.value, PrefixValue, i) && ps.value[i] == dataPrefix.value;
    r := Ok((manifestKey, dataPrefix.value));
  }

  /** `bool(event.get("dry_run", True))`. */
  function DryRunOf(o: Option<bool>): bool
  {
    if o.Some? then o.value else true
  }
}
