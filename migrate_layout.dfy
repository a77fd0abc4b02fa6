/**
 * The one-off migration of configuration snapshots from the legacy layout
 * `backup/criticality=<C>/backup_type=configurations/<rest>` to
 * `backup/configurations/<rest>` in the same bucket. Each legacy key is
 * screened (layout, initiative and service filters), then copied unless the
 * destination exists or the run is a dry run, checked by size, and deleted
 * on request. Keys are processed one after the other.
 */
module MigrateLayout {
  import opened Base
  import opened Strings
  import opened Stamps
  import opened ObjectStore
  import BackupConfigurations
  import LaunchBatchJob

  const Criticalities: seq<string> := ["Critico", "MenosCritico", "NoCritico"]

  /** The segment that ends the legacy part of a key. */
  const Marker := "/backup_type=configurations/"

  /** Where migrated snapshots live. */
  const NewRoot := "backup/configurations/"

  /** The legacy prefix listed for one criticality. */
  function LegacyPrefix(criticality: string): string
  {
    "backup/criticality=" + criticality + Marker
  }

  // ---------------------------------------------------------------------
  // the command line

  datatype OnExists = SkipExisting | Overwrite

  /** The command line as argparse hands it over; `--criticalities` defaults to all three. */
  datatype Args = Args(bucket: string, criticalitiesCsv: string, initiative: Option<string>,
                       servicesCsv: Option<string>, yes: bool, deleteSource: bool, onExists: OnExists)

  datatype Options = Options(bucket: string, criticalities: seq<string>, initiative: Option<string>,
                             services: Option<seq<string>>, yes: bool, deleteSource: bool, onExists: OnExists)

  /**
   * `parse_args` after argparse: the criticalities and services are the
   * trimmed non-empty items of their lists, and a criticality outside the
   * three known ones is a usage error.
   */
  function ParseArgs(args: Args): (r: Result<Options>)
    ensures var crits := CsvItems(Split(args.criticalitiesCsv, ','));
            (r.Ok? <==> forall c :: c in crits ==> c in Criticalities)
            && (r.Ok? ==> r.value.criticalities == crits)
    ensures r.Ok? ==> forall c :: c in r.value.criticalities ==> c in Criticalities
    ensures r.Err? ==> r.error.ValueError?
    ensures r.Ok? ==> (r.value.services.None? <==> !Truthy(args.servicesCsv))
    ensures r.Ok? && r.value.services.Some? ==> forall s :: s in r.value.services.value ==> s != ""
  {
    var crits := CsvItems(Split(args.criticalitiesCsv, ','));
    if exists c :: c in crits && c !in Criticalities then
      Err(ValueError("--criticalities must be subset of: Critico,MenosCritico,NoCritico"))
    else
      var services := if Truthy(args.servicesCsv) then Some(CsvItems(Split(args.servicesCsv.value, ','))) else None;
      Ok(Options(args.bucket, crits, args.initiative, services, args.yes, args.deleteSource, args.onExists))
  }

  /** A string with no whitespace at either end is its own `strip()`. */
  lemma StripPlain(s: string)
    requires |s| > 0 && s[0] !in Whitespace && s[|s| - 1] !in Whitespace
    ensures Strip(s) == s
  {
    assert RStrip(s, Whitespace) == s;
  }

  /** The criticalities come through `strip()` unchanged. */
  lemma CriticalitiesTrimmed()
    ensures Trimmed(Criticalities) == Criticalities
  {
    StripPlain("Critico");
    StripPlain("MenosCritico");
    StripPlain("NoCritico");
  }

  /** No criticality is empty, so none is dropped. */
  lemma CriticalitiesNonEmpty()
    ensures NonEmpty(Criticalities) == Criticalities
  {
    var cs := Criticalities;
    assert cs[..2] == ["Critico", "MenosCritico"] && cs[..2][..1] == ["Critico"] && cs[..2][..1][..0] == [];
    assert NonEmpty(cs[..2][..1]) == ["Critico"];
    assert NonEmpty(cs[..2]) == ["Critico", "MenosCritico"];
  }

  /** The default list, "Critico,MenosCritico,NoCritico", selects the three criticalities in order. */
  lemma DefaultCriticalities()
    ensures CsvItems(Split(Join(Criticalities, ','), ',')) == Criticalities
  {
    assert NoSep(Criticalities, ',');
    SplitJoin(Criticalities, ',');
    CriticalitiesTrimmed();
    CriticalitiesNonEmpty();
  }

  // ---------------------------------------------------------------------
  // parse_suffix

  /** `part.split("=", 1)` for a part that holds `=`. */
  function SplitPair(part: string): (r: (string, string))
    requires '=' in part
    ensures r.0 + "=" + r.1 == part && '=' !in r.0
  {
    var i := CharIndex(part, '=').value;
    assert part == part[..i] + [part[i]] + part[i + 1..];
    (part[..i], part[i + 1..])
  }

  /** A segment `name=value` splits into its name and value when the name holds no `=`. */
  lemma SplitPairOf(name: string, value: string)
    requires '=' !in name
    ensures SplitPair(name + "=" + value) == (name, value)
  {
    var p := name + "=" + value;
    var i := CharIndex(p, '=').value;
    assert p[|name|] == '=';
    assert i == |name|;
    assert p[..i] == name && p[i + 1..] == value;
  }

  /** `parts[:6]`. */
  function Head6(parts: seq<string>): (r: seq<string>)
    ensures |r| <= 6 && |r| <= |parts| && r == parts[..|r|]
    ensures |parts| <= 6 ==> r == parts
  {
    if |parts| <= 6 then parts else parts[..6]
  }

  /** The metadata the loop of `parse_suffix` fills: each `name=value` part, a later name replacing an earlier one. */
  function MetaOf(parts: seq<string>): map<string, string>
  {
    if parts == [] then map[]
    else
      var m := MetaOf(parts[..|parts| - 1]);
      var p := parts[|parts| - 1];
      if '=' in p then m[SplitPair(p).0 := SplitPair(p).1] else m
  }

  /** The name a part gives the metadata, if it holds `=`. */
  function PartName(part: string): Option<string>
  {
    if '=' in part then Some(SplitPair(part).0) else None
  }

  /** A name is in the metadata exactly when some part gives it. */
  lemma {:induction false} MetaDomain(parts: seq<string>, k: string)
    ensures k in MetaOf(parts) <==> exists i :: 0 <= i < |parts| && PartName(parts[i]) == Some(k)
  {
    if parts != [] {
      var init := parts[..|parts| - 1];
      MetaDomain(init, k);
      assert forall i :: 0 <= i < |init| ==> init[i] == parts[i];
    }
  }

  /** The value of a name is the one its last part gives. */
  lemma {:induction false} MetaValue(parts: seq<string>, i: nat)
    requires i < |parts| && '=' in parts[i]
    requires forall j :: i < j < |parts| ==> PartName(parts[j]) != PartName(parts[i])
    ensures SplitPair(parts[i]).0 in MetaOf(parts)
    ensures MetaOf(parts)[SplitPair(parts[i]).0] == SplitPair(parts[i]).1
  {
    if i < |parts| - 1 {
      var init := parts[..|parts| - 1];
      assert init[i] == parts[i];
      assert forall j :: i < j < |init| ==> init[j] == parts[j];
      MetaValue(init, i);
      assert PartName(parts[|parts| - 1]) != PartName(parts[i]);
    }
  }

  /**
   * `parse_suffix`: a key outside the prefix raises; otherwise the text
   * after the prefix, and the metadata of its first six segments.
   */
  method ParseSuffix(key: string, prefix: string) returns (r: Result<(string, map<string, string>)>)
    ensures r.Err? <==> !StartsWith(key, prefix)
    ensures r.Err? ==> r.error.ValueError?
    ensures r.Ok? ==> prefix + r.value.0 == key
    ensures r.Ok? ==> r.value.1 == MetaOf(Head6(Split(r.value.0, '/')))
  {
    if !StartsWith(key, prefix) {
      return Err(ValueError("Key does not start with legacy prefix"));
    }
    var suffix := key[|prefix|..];
    var parts := Head6(Split(suffix, '/'));
    var meta: map<string, string> := map[];
    var i := 0;
    while i < |parts|
      invariant 0 <= i <= |parts|
      invariant meta == MetaOf(parts[..i])
    {
      assert parts[..i + 1][..i] == parts[..i];
      if '=' in parts[i] {
        var (k, v) := SplitPair(parts[i]);
        meta := meta[k := v];
      }
      i := i + 1;
    }
    assert parts[..i] == parts;
    assert prefix + suffix == key;
    r := Ok((suffix, meta));
  }

  // ---------------------------------------------------------------------
  // where a key moves

  /** The legacy head (up to and including the first marker) and the suffix after it. */
  function Legacy(src: string): (r: Option<(string, string)>)
    ensures r.Some? <==> Contains(src, Marker)
    ensures r.Some? ==> r.value.0 + r.value.1 == src && EndsWith(r.value.0, Marker)
  {
    match Find(src, Marker)
      case None => None
      case Some(i) =>
        assert src == src[..i + |Marker|] + src[i + |Marker|..];
        Some((src[..i + |Marker|], src[i + |Marker|..]))
  }

  /** `dst_key`: the new root followed by the text after the first marker. */
  function Destination(src: string): (r: Option<string>)
    ensures r.Some? <==> Contains(src, Marker)
    ensures r.Some? ==> r.value == NewRoot + Legacy(src).value.1
    ensures r.Some? ==> r.value != src
  {
    match Legacy(src)
      case None => None
      case Some((head, suffix)) =>
        assert |head| >= |Marker| > |NewRoot|;
        Some(NewRoot + suffix)
  }

  /** No marker starts inside a legacy prefix before its own one. */
  lemma NoEarlierMarker(criticality: string, rest: string)
    requires '/' !in criticality
    ensures var s := LegacyPrefix(criticality) + rest;
            forall j :: 0 <= j < 19 + |criticality| ==> !StartsWith(s[j..], Marker)
  {
    var s := LegacyPrefix(criticality) + rest;
    var tail := "criticality=" + criticality + Marker + rest;
    assert s == "backup" + "/" + tail;
    assert '/' !in "backup" && '/' !in "criticality=";
    forall j | 0 <= j < 19 + |criticality|
      ensures s[j] != '/' || s[j + 1] != 'b'
    {
      if j < 6 {
        assert s[j] == "backup"[j];
        assert "backup"[j] in "backup";
      } else if j == 6 {
        assert s[j + 1] == tail[0] == 'c';
      } else if j < 19 {
        assert s[j] == "criticality="[j - 7];
        assert "criticality="[j - 7] in "criticality=";
      } else {
        assert s[j] == criticality[j - 19];
        assert criticality[j - 19] in criticality;
      }
    }
    assert Marker[0] == '/' && Marker[1] == 'b';
    forall j | 0 <= j < 19 + |criticality|
      ensures !StartsWith(s[j..], Marker)
    {
      assert s[j..][..|Marker|][0] == s[j] && s[j..][..|Marker|][1] == s[j + 1];
    }
  }

  /** A key of the legacy layout moves to the same path under the new root. */
  lemma LegacyKeyMoves(criticality: string, rest: string)
    requires '/' !in criticality
    ensures Legacy(LegacyPrefix(criticality) + rest) == Some((LegacyPrefix(criticality), rest))
    ensures Destination(LegacyPrefix(criticality) + rest) == Some(NewRoot + rest)
  {
    var s := LegacyPrefix(criticality) + rest;
    var p := 19 + |criticality|;
    assert s[p..p + |Marker|] == Marker;
    assert StartsWith(s[p..], Marker);
    ContainsAt(s, Marker, p);
    NoEarlierMarker(criticality, rest);
    var i := Find(s, Marker).value;
    assert StartsWith(s[i..], Marker) by {
      assert s[i..][..|Marker|] == s[i..i + |Marker|];
    }
    assert i == p;
    assert s[..i + |Marker|] == LegacyPrefix(criticality);
    assert s[i + |Marker|..] == rest;
  }

  /** The first three segments of a snapshot key, joined, are the Critico legacy prefix without its last slash. */
  lemma LeadJoin()
    ensures Join(["backup", "criticality=Critico", "backup_type=configurations"], '/') + "/" == LegacyPrefix("Critico")
  {
    JoinThree("backup", "criticality=Critico", "backup_type=configurations", '/');
    assert ['/'] == "/";
    assert "criticality=Critico" == "criticality=" + "Critico";
    assert "backup/criticality=" == "backup" + "/" + "criticality=";
    assert Marker == "/" + "backup_type=configurations" + "/";
    Regroup("backup", "/", "criticality=", "Critico", "backup_type=configurations");
  }

  lemma JoinThree(a: string, b: string, c: string, sep: char)
    ensures Join([a, b, c], sep) == a + [sep] + (b + [sep] + c)
  {
    assert [a, b, c][1..] == [b, c];
    assert [b, c][1..] == [c];
    assert Join([b, c], sep) == b + [sep] + c;
    assert Join([a, b, c], sep) == a + [sep] + Join([b, c], sep);
  }

  lemma Regroup(a: string, s: string, c: string, d: string, e: string)
    ensures a + s + ((c + d) + s + e) + s == (a + s + c) + d + (s + e + s)
  {
  }

  /** A snapshot key is the Critico legacy prefix followed by its last seven segments. */
  lemma SnapshotUnderLegacyPrefix(initiative: string, service: string, t: DateTime)
    ensures var segs := BackupConfigurations.SnapshotSegments(initiative, service, t);
            BackupConfigurations.SnapshotKey(initiative, service, t) == LegacyPrefix("Critico") + Join(segs[3..], '/')
  {
    var segs := BackupConfigurations.SnapshotSegments(initiative, service, t);
    var lead := segs[..3];
    JoinAppend(lead, segs[3..], '/');
    assert lead + segs[3..] == segs;
    assert lead == ["backup", "criticality=Critico", "backup_type=configurations"];
    LeadJoin();
  }

  /** The segments after the legacy prefix of a snapshot key read back as they were written. */
  lemma SnapshotSuffixParts(initiative: string, service: string, t: DateTime)
    requires '/' !in initiative && '/' !in service
    ensures var segs := BackupConfigurations.SnapshotSegments(initiative, service, t);
            Head6(Split(Join(segs[3..], '/'), '/'))
              == ["initiative=" + initiative, "service=" + service] + LaunchBatchJob.HourSegments(t)
  {
    var key := BackupConfigurations.SnapshotKey(initiative, service, t);
    var segs := BackupConfigurations.SnapshotSegments(initiative, service, t);
    BackupConfigurations.SnapshotKeyParts(initiative, service, t);
    SplitPiecesFree(key, '/');
    assert NoSep(segs[3..], '/') by {
      assert forall i :: 0 <= i < |segs[3..]| ==> segs[3..][i] == segs[i + 3];
    }
    SplitJoin(segs[3..], '/');
    assert segs[3..][..6] == segs[3..9];
  }

  /** A part `name=value` gives the name, when the name holds no `=`. */
  lemma PartNameOf(name: string, value: string)
    requires '=' !in name
    ensures '=' in name + "=" + value
    ensures PartName(name + "=" + value) == Some(name)
  {
    assert (name + "=" + value)[|name|] == '=';
    SplitPairOf(name, value);
  }

  /** The hour segments give the names year, month, day and hour. */
  lemma HourNames(t: DateTime)
    ensures var hour := LaunchBatchJob.HourSegments(t);
            PartName(hour[0]) == Some("year") && PartName(hour[1]) == Some("month")
            && PartName(hour[2]) == Some("day") && PartName(hour[3]) == Some("hour")
  {
    var hour := LaunchBatchJob.HourSegments(t);
    assert hour[0] == "year" + "=" + Pad(t.year, 4);
    PartNameOf("year", Pad(t.year, 4));
    assert hour[1] == "month" + "=" + Pad(t.month, 2);
    PartNameOf("month", Pad(t.month, 2));
    assert hour[2] == "day" + "=" + Pad(t.day, 2);
    PartNameOf("day", Pad(t.day, 2));
    assert hour[3] == "hour" + "=" + Pad(t.hour, 2);
    PartNameOf("hour", Pad(t.hour, 2));
  }

  /** The metadata of the parts a snapshot key is written with names its initiative and service. */
  lemma SnapshotMeta(initiative: string, service: string, t: DateTime)
    ensures var meta := MetaOf(["initiative=" + initiative, "service=" + service] + LaunchBatchJob.HourSegments(t));
            "initiative" in meta && meta["initiative"] == initiative
            && "service" in meta && meta["service"] == service
  {
    InitiativeMeta(initiative, service, t);
    ServiceMeta(initiative, service, t);
  }

  lemma InitiativeMeta(initiative: string, service: string, t: DateTime)
    ensures var meta := MetaOf(["initiative=" + initiative, "service=" + service] + LaunchBatchJob.HourSegments(t));
            "initiative" in meta && meta["initiative"] == initiative
  {
    var hour := LaunchBatchJob.HourSegments(t);
    var parts := ["initiative=" + initiative, "service=" + service] + hour;
    HourNames(t);
    assert parts[0] == "initiative" + "=" + initiative;
    PartNameOf("initiative", initiative);
    SplitPairOf("initiative", initiative);
    PartNameOf("service", service);
    assert parts[1] == "service" + "=" + service;
    assert parts[2..] == hour;
    MetaValue(parts, 0);
  }

  lemma ServiceMeta(initiative: string, service: string, t: DateTime)
    ensures var meta := MetaOf(["initiative=" + initiative, "service=" + service] + LaunchBatchJob.HourSegments(t));
            "service" in meta && meta["service"] == service
  {
    var hour := LaunchBatchJob.HourSegments(t);
    var parts := ["initiative=" + initiative, "service=" + service] + hour;
    HourNames(t);
    assert parts[1] == "service" + "=" + service;
    PartNameOf("service", service);
    SplitPairOf("service", service);
    assert parts[2..] == hour;
    MetaValue(parts, 1);
  }

  /**
   * A snapshot written by the configuration lambda moves to the new root
   * with its initiative, service and hour segments intact, and its
   * metadata names the initiative and service it was written for.
   */
  lemma SnapshotMigrates(initiative: string, service: string, t: DateTime)
    requires '/' !in initiative && '/' !in service
    ensures var key := BackupConfigurations.SnapshotKey(initiative, service, t);
            var segs := BackupConfigurations.SnapshotSegments(initiative, service, t);
            Legacy(key).Some? && Legacy(key).value.1 == Join(segs[3..], '/')
            && Destination(key) == Some(NewRoot + Join(segs[3..], '/'))
            && var meta := MetaOf(Head6(Split(Legacy(key).value.1, '/')));
               "initiative" in meta && meta["initiative"] == initiative
               && "service" in meta && meta["service"] == service
  {
    var segs := BackupConfigurations.SnapshotSegments(initiative, service, t);
    SnapshotUnderLegacyPrefix(initiative, service, t);
    LegacyKeyMoves("Critico", Join(segs[3..], '/'));
    SnapshotSuffixParts(initiative, service, t);
    SnapshotMeta(initiative, service, t);
  }

  // ---------------------------------------------------------------------
  // copy_one

  /** What `copy_one` reports for a key; the comments give the message it prints. */
  datatype Outcome =
    | NotConfigurations           // "skip: not a configurations key"
    | InitiativeFiltered          // "skip: initiative filter"
    | ServiceFiltered             // "skip: service filter"
    | Existed(dst: string)        // "exists, skipped -> <dst>"
    | DryRun(dst: string)         // "dry-run -> <dst>"
    | CopyFailed(code: string)    // "error copying: <error>"
    | VerifyFailed                // "verify failed: size mismatch or head missing"
    | DeleteFailed(code: string)  // "copied but delete failed: <error>"
    | MigratedAndDeleted(dst: string)
    | Migrated(dst: string)

  /** The word a message opens with. */
  function Word(o: Outcome): string
  {
    match o
      case NotConfigurations | InitiativeFiltered | ServiceFiltered => "skip"
      case Existed(_) => "exists"
      case DryRun(_) => "dry-run"
      case CopyFailed(_) => "error"
      case VerifyFailed => "verify failed"
      case DeleteFailed(_) => "copied"
      case MigratedAndDeleted(_) | Migrated(_) => "migrated"
  }

  /** The message `copy_one` returns with a key. */
  function Message(o: Outcome): string
  {
    Word(o) + match o
      case NotConfigurations => ": not a configurations key"
      case InitiativeFiltered => ": initiative filter"
      case ServiceFiltered => ": service filter"
      case Existed(dst) => ", skipped -> " + dst
      case DryRun(dst) => " -> " + dst
      case CopyFailed(code) => " copying: " + code
      case VerifyFailed => ": size mismatch or head missing"
      case DeleteFailed(code) => " but delete failed: " + code
      case MigratedAndDeleted(dst) => " and deleted -> " + dst
      case Migrated(dst) => " -> " + dst
  }

  /**
   * The summary tells outcomes apart by the start of their message: only a
   * failed copy reads as an error (a failed delete does not), and only the
   * two migrated outcomes read as migrated.
   */
  lemma MessageKinds(o: Outcome)
    ensures StartsWith(Message(o), "error") <==> o.CopyFailed?
    ensures StartsWith(Message(o), "migrated") <==> o.Migrated? || o.MigratedAndDeleted?
    ensures StartsWith(Message(o), "skip") <==> o.NotConfigurations? || o.InitiativeFiltered? || o.ServiceFiltered?
    ensures StartsWith(Message(o), "verify failed") <==> o.VerifyFailed?
  {
    var w := Word(o);
    var m := Message(o);
    Opens(w, m[|w|..]);
    assert m == w + m[|w|..];
    assert m[0] == w[0] && m[1] == w[1];
    OpensOther(m, w[0]);
  }

  lemma Opens(a: string, b: string)
    ensures StartsWith(a + b, a)
  {
    assert (a + b)[..|a|] == a;
  }

  /** A message that opens with `c` opens with none of the other kinds' words. */
  lemma OpensOther(m: string, c: char)
    requires |m| > 1 && m[0] == c
    ensures c != 's' ==> !StartsWith(m, "skip")
    ensures c != 'e' ==> !StartsWith(m, "error")
    ensures c != 'm' ==> !StartsWith(m, "migrated")
    ensures c != 'v' ==> !StartsWith(m, "verify failed")
    ensures c == 'e' && m[1] != 'r' ==> !StartsWith(m, "error")
  {
    forall w | w in ["skip", "error", "migrated", "verify failed"] && |w| <= |m|
      ensures m[..|w|][0] == c && m[..|w|][1] == m[1]
    {
    }
  }

  /** `d.get(k)`. */
  function Lookup(meta: map<string, string>, k: string): Option<string>
  {
    if k in meta then Some(meta[k]) else None
  }

  /** The metadata of a configurations key, as `copy_one` parses it. */
  function MetaOfKey(src: string): map<string, string>
    requires Contains(src, Marker)
  {
    MetaOf(Head6(Split(Legacy(src).value.1, '/')))
  }

  /**
   * The decision `copy_one` takes before any call to S3: skip a key outside
   * the configurations layout, or one the initiative or service filter
   * rejects; None lets the key go on.
   */
  function Screen(opts: Options, src: string): (r: Option<Outcome>)
    ensures !Contains(src, Marker) ==> r == Some(NotConfigurations)
    ensures (Contains(src, Marker) && Truthy(opts.initiative)
             && Lookup(MetaOfKey(src), "initiative") != opts.initiative) ==> r == Some(InitiativeFiltered)
    ensures r.None? ==> Contains(src, Marker)
    ensures r.None? && Truthy(opts.initiative) ==> Lookup(MetaOfKey(src), "initiative") == opts.initiative
    ensures r.None? && opts.services.Some? && opts.services.value != [] ==>
              "service" in MetaOfKey(src) && MetaOfKey(src)["service"] in opts.services.value
  {
    if !Contains(src, Marker) then Some(NotConfigurations)
    else
      var meta := MetaOfKey(src);
      var ini, svc := Lookup(meta, "initiative"), Lookup(meta, "service");
      if Truthy(opts.initiative) && ini != opts.initiative then Some(InitiativeFiltered)
      else if opts.services.Some? && opts.services.value != [] && (svc.None? || svc.value !in opts.services.value)
      then Some(ServiceFiltered)
      else None
  }

  /** `head_key`: the object's size, None for a missing key; other errors are raised. */
  function HeadSize(store: Store, loc: Loc): (r: Result<Option<nat>>)
    reads store
    ensures r.Ok? <==> loc.bucket in store.reachable
    ensures r.Ok? ==> (r.value.Some? <==> loc in store.objects)
    ensures r.Ok? && r.value.Some? ==> r.value.value == |store.objects[loc]|
  {
    match store.Get(loc)
      case Ok(body) => Ok(Some(|body|))
      case Err(ClientError(code)) =>
        if code in {"404", "NotFound", "NoSuchKey"} then Ok(None) else Err(ClientError(code))
      case Err(e) => Err(e)
  }

  /**
   * What `copy_one` does to one key against the objects `objects`: the
   * outcome it reports, or the error `head_key` raises in an unreachable
   * bucket, and the objects it leaves. A screened key touches nothing; then
   * the checks run in the script's order: an existing destination under
   * `skip`, a dry run, a failed copy, a copy without delete, a refused
   * delete after the copy, and a copy with delete.
   */
  function CopyEffect(objects: map<Loc, string>, reachable: set<string>, locked: set<string>,
                      opts: Options, src: string): (r: (Result<Outcome>, map<Loc, string>))
    ensures r.0.Err? <==> Screen(opts, src).None? && opts.bucket !in reachable
    ensures r.0.Err? ==> r.0.error == ClientError("NoSuchBucket")
    ensures opts.bucket !in reachable || !opts.yes || Screen(opts, src).Some? ==> r.1 == objects
  {
    match Screen(opts, src)
      case Some(o) => (Ok(o), objects)
      case None =>
        if opts.bucket !in reachable then (Err(ClientError("NoSuchBucket")), objects)
        else
          var from, to := Loc(opts.bucket, src), Loc(opts.bucket, Destination(src).value);
          if to in objects && opts.onExists == SkipExisting then (Ok(Existed(to.key)), objects)
          else if !opts.yes then (Ok(DryRun(to.key)), objects)
          else if from !in objects then (Ok(CopyFailed("NoSuchKey")), objects)
          else if !opts.deleteSource then (Ok(Migrated(to.key)), objects[to := objects[from]])
          else if opts.bucket in locked then (Ok(DeleteFailed("AccessDenied")), objects[to := objects[from]])
          else (Ok(MigratedAndDeleted(to.key)), objects[to := objects[from]] - {from})
  }

  /**
   * `copy_one`. Screened keys and an unreachable bucket leave the store as
   * it was; an existing destination under `skip`, or a run without `--yes`,
   * copies nothing. Otherwise the destination receives the source's body,
   * which makes the size check pass, and the source is deleted only with
   * `--delete-source`.
   */
  method CopyOne(store: Store, opts: Options, src: string) returns (r: Result<Outcome>)
    modifies store
    ensures (r, store.objects) == CopyEffect(old(store.objects), store.reachable, store.locked, opts, src)
    ensures Screen(opts, src).Some? ==> r == Ok(Screen(opts, src).value) && store.objects == old(store.objects)
    ensures r.Err? ==> store.objects == old(store.objects) && opts.bucket !in store.reachable
    ensures !opts.yes ==> store.objects == old(store.objects)
    ensures r.Ok? ==> !r.value.VerifyFailed?
    ensures r.Ok? && (r.value.Existed? || r.value.DryRun? || r.value.CopyFailed?) ==> store.objects == old(store.objects)
    ensures r.Ok? && Screen(opts, src).None? ==>
              var from, to := Loc(opts.bucket, src), Loc(opts.bucket, Destination(src).value);
              (r.value.Existed? ==> opts.onExists == SkipExisting && to in old(store.objects))
              && (r.value.Existed? || r.value.DryRun? || r.value.Migrated? || r.value.MigratedAndDeleted?
                  ==> r.value.dst == to.key)
              && (r.value.Migrated? || r.value.DeleteFailed? ==>
                    from in old(store.objects) && store.objects == old(store.objects)[to := old(store.objects)[from]])
              && (r.value.Migrated? ==> !opts.deleteSource)
              && (r.value.MigratedAndDeleted? ==>
                    opts.yes && opts.deleteSource && from in old(store.objects)
                    && store.objects == old(store.objects)[to := old(store.objects)[from]] - {from})
    ensures r.Err? <==> Screen(opts, src).None? && opts.bucket !in store.reachable
    ensures Screen(opts, src).None? && opts.bucket in store.reachable ==>
              var from, to := Loc(opts.bucket, src), Loc(opts.bucket, Destination(src).value);
              r == Ok(if to in old(store.objects) && opts.onExists == SkipExisting then Existed(to.key)
                      else if !opts.yes then DryRun(to.key)
                      else if from !in old(store.objects) then CopyFailed("NoSuchKey")
                      else if !opts.deleteSource then Migrated(to.key)
                      else if opts.bucket in store.locked then DeleteFailed("AccessDenied")
                      else MigratedAndDeleted(to.key))
  {
    var screened := Screen(opts, src);
    if screened.Some? {
      return Ok(screened.value);
    }
    var (head, suffix) := Legacy(src).value;
    var parsed := ParseSuffix(src, head);
    assert parsed.Ok? && parsed.value.0 == suffix;
    var dst := NewRoot + suffix;
    var from, to := Loc(opts.bucket, src), Loc(opts.bucket, dst);
    var dstHead := HeadSize(store, to);
    if dstHead.Err? {
      return Err(dstHead.error);
    }
    if dstHead.value.Some? && opts.onExists == SkipExisting {
      return Ok(Existed(dst));
    }
    if !opts.yes {
      return Ok(DryRun(dst));
    }
    var copied := store.Copy(from, to);
    if copied.Err? {
      var code := if copied.error.ClientError? then copied.error.code else "";
      return Ok(CopyFailed(code));
    }
    var srcHead := HeadSize(store, from);
    var newHead := HeadSize(store, to);
    if !(srcHead.Ok? && srcHead.value.Some? && newHead.Ok? && newHead.value.Some?
         && srcHead.value.value == newHead.value.value) {
      return Ok(VerifyFailed);
    }
    if opts.deleteSource {
      var deleted := store.Delete(from);
      if deleted.Err? {
        var code := if deleted.error.ClientError? then deleted.error.code else "";
        return Ok(DeleteFailed(code));
      }
      return Ok(MigratedAndDeleted(dst));
    }
    r := Ok(Migrated(dst));
  }

  // ---------------------------------------------------------------------
  // main

  /** The configurations keys of one listing, in order. */
  function ConfigKeys(keys: seq<string>): (r: seq<string>)
    ensures forall k :: k in r <==> k in keys && Contains(k, Marker)
  {
    if keys == [] then []
    else
      var rest := ConfigKeys(keys[..|keys| - 1]);
      var last := keys[|keys| - 1];
      assert keys == keys[..|keys| - 1] + [last];
      if Contains(last, Marker) then rest + [last] else rest
  }

  /** `to_process`: the configurations keys under each criticality's legacy prefix, criticality by criticality. */
  function Gathered(criticalities: seq<string>, list: string -> seq<string>): seq<string>
  {
    if criticalities == [] then []
    else
      Gathered(criticalities[..|criticalities| - 1], list)
      + ConfigKeys(list(LegacyPrefix(criticalities[|criticalities| - 1])))
  }

  /**
   * `main`'s copy loop over `keys`, one `copy_one` after the other: the
   * outcomes in order and the objects the last copy leaves, or the first
   * error raised, with the objects as they stood when it was raised.
   */
  function Migrations(objects: map<Loc, string>, reachable: set<string>, locked: set<string>,
                      opts: Options, keys: seq<string>): (r: (Result<seq<Outcome>>, map<Loc, string>))
    ensures r.0.Ok? ==> |r.0.value| == |keys|
    decreases |keys|
  {
    if keys == [] then (Ok([]), objects)
    else
      var before := Migrations(objects, reachable, locked, opts, keys[..|keys| - 1]);
      if before.0.Err? then before
      else
        var step := CopyEffect(before.1, reachable, locked, opts, keys[|keys| - 1]);
        if step.0.Err? then (Err(step.0.error), step.1) else (Ok(before.0.value + [step.0.value]), step.1)
  }

  /**
   * Each outcome of a completed loop is that of `copy_one` on its key,
   * against the objects the earlier copies left.
   */
  lemma {:induction false} MigrationsOutcomes(objects: map<Loc, string>, reachable: set<string>, locked: set<string>,
                                              opts: Options, keys: seq<string>, i: nat)
    requires Migrations(objects, reachable, locked, opts, keys).0.Ok? && i < |keys|
    ensures Migrations(objects, reachable, locked, opts, keys[..i]).0.Ok?
    ensures CopyEffect(Migrations(objects, reachable, locked, opts, keys[..i]).1, reachable, locked, opts, keys[i]).0.Ok?
    ensures Migrations(objects, reachable, locked, opts, keys).0.value[i]
            == CopyEffect(Migrations(objects, reachable, locked, opts, keys[..i]).1, reachable, locked, opts, keys[i]).0.value
    decreases |keys|
  {
    var init := keys[..|keys| - 1];
    if i < |keys| - 1 {
      MigrationsOutcomes(objects, reachable, locked, opts, init, i);
      assert init[..i] == keys[..i];
    } else {
      assert init == keys[..i];
    }
  }

  /** Once a copy raises, the loop raises that error and nothing after it runs. */
  lemma {:induction false} MigrationsStop(objects: map<Loc, string>, reachable: set<string>, locked: set<string>,
                                          opts: Options, keys: seq<string>, n: nat)
    requires n <= |keys| && Migrations(objects, reachable, locked, opts, keys[..n]).0.Err?
    ensures Migrations(objects, reachable, locked, opts, keys) == Migrations(objects, reachable, locked, opts, keys[..n])
    decreases |keys|
  {
    if n < |keys| {
      var init := keys[..|keys| - 1];
      assert init[..n] == keys[..n];
      MigrationsStop(objects, reachable, locked, opts, init, n);
    } else {
      assert keys[..n] == keys;
    }
  }

  /** One more key: the loop over a prefix one key longer takes one more `copy_one` step. */
  lemma MigrationsStep(objects: map<Loc, string>, reachable: set<string>, locked: set<string>,
                       opts: Options, keys: seq<string>, n: nat)
    requires n < |keys|
    ensures var before := Migrations(objects, reachable, locked, opts, keys[..n]);
            var step := CopyEffect(before.1, reachable, locked, opts, keys[n]);
            Migrations(objects, reachable, locked, opts, keys[..n + 1])
            == if before.0.Err? then before
               else if step.0.Err? then (Err(step.0.error), step.1)
               else (Ok(before.0.value + [step.0.value]), step.1)
  {
    assert keys[..n + 1][..n] == keys[..n];
  }

  /**
   * The loop raises only in an unreachable bucket, and there exactly when
   * some key passes the screen.
   */
  lemma {:induction false} MigrationsRaise(objects: map<Loc, string>, reachable: set<string>, locked: set<string>,
                                           opts: Options, keys: seq<string>)
    ensures Migrations(objects, reachable, locked, opts, keys).0.Err?
            <==> opts.bucket !in reachable && exists i :: 0 <= i < |keys| && Screen(opts, keys[i]).None?
    decreases |keys|
  {
    if keys != [] {
      var init := keys[..|keys| - 1];
      MigrationsRaise(objects, reachable, locked, opts, init);
      assert forall i :: 0 <= i < |init| ==> init[i] == keys[i];
    }
  }

  /** The error the loop raises is the one `head_object` gives for a missing bucket. */
  lemma {:induction false} RaisedError(objects: map<Loc, string>, reachable: set<string>, locked: set<string>,
                                       opts: Options, keys: seq<string>)
    ensures Migrations(objects, reachable, locked, opts, keys).0.Err? ==>
              Migrations(objects, reachable, locked, opts, keys).0.error == ClientError("NoSuchBucket")
    decreases |keys|
  {
    if keys != [] {
      RaisedError(objects, reachable, locked, opts, keys[..|keys| - 1]);
    }
  }

  /** In an unreachable bucket nothing changes, whether or not the loop raises. */
  lemma {:induction false} UnreachableKeepsObjects(objects: map<Loc, string>, reachable: set<string>, locked: set<string>,
                                                   opts: Options, keys: seq<string>)
    requires opts.bucket !in reachable
    ensures Migrations(objects, reachable, locked, opts, keys).1 == objects
    decreases |keys|
  {
    if keys != [] {
      UnreachableKeepsObjects(objects, reachable, locked, opts, keys[..|keys| - 1]);
    }
  }

  /** Without `--yes` the loop copies and deletes nothing. */
  lemma {:induction false} DryRunKeepsObjects(objects: map<Loc, string>, reachable: set<string>, locked: set<string>,
                                              opts: Options, keys: seq<string>)
    requires !opts.yes
    ensures Migrations(objects, reachable, locked, opts, keys).1 == objects
    decreases |keys|
  {
    if keys != [] {
      DryRunKeepsObjects(objects, reachable, locked, opts, keys[..|keys| - 1]);
    }
  }

  method FilterKeys(keys: seq<string>) returns (kept: seq<string>)
    ensures kept == ConfigKeys(keys)
  {
    kept := [];
    var i := 0;
    while i < |keys|
      invariant 0 <= i <= |keys|
      invariant kept == ConfigKeys(keys[..i])
    {
      assert keys[..i + 1][..i] == keys[..i];
      if Contains(keys[i], Marker) {
        kept := kept + [keys[i]];
      }
      i := i + 1;
    }
    assert keys[..i] == keys;
  }

  method GatherKeys(criticalities: seq<string>, list: string -> seq<string>) returns (toProcess: seq<string>)
    ensures toProcess == Gathered(criticalities, list)
  {
    toProcess := [];
    var i := 0;
    while i < |criticalities|
      invariant 0 <= i <= |criticalities|
      invariant toProcess == Gathered(criticalities[..i], list)
    {
      assert criticalities[..i + 1][..i] == criticalities[..i];
      var kept := FilterKeys(list(LegacyPrefix(criticalities[i])));
      toProcess := toProcess + kept;
      i := i + 1;
    }
    assert criticalities[..i] == criticalities;
  }

  /**
   * `main` after option parsing: gather the legacy keys, answer 0 when
   * there are none, otherwise run `copy_one` on each key in turn and answer
   * 1 exactly when some message starts with "error". A run without `--yes`
   * leaves the store as it was.
   */
  method Run(store: Store, opts: Options, list: string -> seq<string>)
    returns (code: Result<int>, results: seq<Outcome>)
    modifies store
    ensures var keys := Gathered(opts.criticalities, list);
            (keys == [] ==> code == Ok(0) && results == [])
            && (code.Ok? ==> |results| == |keys|
                             && forall i :: 0 <= i < |results| && Screen(opts, keys[i]).Some?
                                  ==> results[i] == Screen(opts, keys[i]).value)
    ensures code.Ok? ==> code.value in {0, 1}
    ensures code.Ok? ==> (code.value == 1 <==> exists i :: 0 <= i < |results| && StartsWith(Message(results[i]), "error"))
    ensures forall i :: 0 <= i < |results| ==> !results[i].VerifyFailed?
    ensures code.Err? ==> opts.bucket !in store.reachable
    ensures !opts.yes ==> store.objects == old(store.objects)
    ensures var m := Migrations(old(store.objects), store.reachable, store.locked, opts, Gathered(opts.criticalities, list));
            store.objects == m.1 && (code.Ok? <==> m.0.Ok?)
            && (code.Ok? ==> results == m.0.value) && (code.Err? ==> code.error == m.0.error)
  {
    var keys := GatherKeys(opts.criticalities, list);
    results := [];
    if keys == [] {
      return Ok(0), results;
    }
    var i := 0;
    while i < |keys|
      invariant 0 <= i <= |keys| && |results| == i
      invariant forall j :: 0 <= j < |results| && Screen(opts, keys[j]).Some? ==> results[j] == Screen(opts, keys[j]).value
      invariant forall j :: 0 <= j < |results| ==> !results[j].VerifyFailed?
      invariant !opts.yes ==> store.objects == old(store.objects)
      invariant Migrations(old(store.objects), store.reachable, store.locked, opts, keys[..i]) == (Ok(results), store.objects)
    {
      MigrationsStep(old(store.objects), store.reachable, store.locked, opts, keys, i);
      var next := CopyNext(store, opts, keys, results);
      if next.Err? {
        MigrationsStop(old(store.objects), store.reachable, store.locked, opts, keys, i + 1);
        return Err(next.error), results;
      }
      results := next.value;
      i := i + 1;
    }
    assert keys[..i] == keys;
    ErrorMessages(results);
    code := Ok(if exists j :: 0 <= j < |results| && results[j].CopyFailed? then 1 else 0);
  }

  /** One pass of `main`'s loop: `copy_one` on the next key, its outcome appended. */
  method CopyNext(store: Store, opts: Options, keys: seq<string>, results: seq<Outcome>)
    returns (next: Result<seq<Outcome>>)
    requires |results| < |keys|
    requires forall j :: 0 <= j < |results| && Screen(opts, keys[j]).Some? ==> results[j] == Screen(opts, keys[j]).value
    requires forall j :: 0 <= j < |results| ==> !results[j].VerifyFailed?
    modifies store
    ensures next.Ok? ==>
              |next.value| == |results| + 1
              && (forall j :: 0 <= j < |results| + 1 && Screen(opts, keys[j]).Some?
                    ==> next.value[j] == Screen(opts, keys[j]).value)
              && forall j :: 0 <= j < |results| + 1 ==> !next.value[j].VerifyFailed?
    ensures next.Err? ==> opts.bucket !in store.reachable
    ensures !opts.yes ==> store.objects == old(store.objects)
    ensures var step := CopyEffect(old(store.objects), store.reachable, store.locked, opts, keys[|results|]);
            store.objects == step.1 && (next.Ok? <==> step.0.Ok?)
            && (next.Ok? ==> next.value == results + [step.0.value]) && (next.Err? ==> next.error == step.0.error)
  {
    var one := CopyOne(store, opts, keys[|results|]);
    if one.Err? {
      return Err(one.error);
    }
    next := Ok(results + [one.value]);
  }

  /** A run's messages start with "error" exactly where a copy failed. */
  lemma ErrorMessages(results: seq<Outcome>)
    ensures (exists j :: 0 <= j < |results| && StartsWith(Message(results[j]), "error"))
            <==> exists j :: 0 <= j < |results| && results[j].CopyFailed?
  {
    forall j | 0 <= j < |results|
      ensures StartsWith(Message(results[j]), "error") <==> results[j].CopyFailed?
    {
      MessageKinds(results[j]);
    }
  }
}
