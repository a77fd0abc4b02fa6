/**
 * The inventory filter of the scheduled pipeline. It reads the newest S3
 * Inventory of a source bucket (or, before the first inventory exists, lists
 * the bucket directly) and writes a CSV manifest of `bucket,key` lines for the
 * objects that are due, uploaded in parts of at least 6 MiB. A checkpoint per
 * source bucket and backup type remembers when the last non-empty manifest
 * was produced.
 */
module FilterInventory {
  import opened Base
  import opened Strings
  import opened Stamps
  import opened ObjectStore
  import opened Listings
  import Checkpoints

  /**
   * MIN_CHUNK_SIZE_BYTES. The test is made on the position of the text
   * buffer, which counts characters.
   */
  const MinChunkSize: nat := 6 * 1024 * 1024

  // ---------------------------------------------------------------------
  // the inventory schema

  /** The trimmed column names of a `fileSchema` string. */
  function Columns(schema: string): (r: seq<string>)
    ensures |r| == |Split(schema, ',')|
  {
    var parts := Split(schema, ',');
    seq(|parts|, i requires 0 <= i < |parts| => Strip(parts[i]))
  }

  /** A schema written from clean column names reads back as those names. */
  lemma ColumnsOfSchema(names: seq<string>)
    requires |names| >= 1 && NoSep(names, ',')
    requires forall i :: 0 <= i < |names| ==> Strip(names[i]) == names[i]
    ensures Columns(Join(names, ',')) == names
  {
    SplitJoin(names, ',');
  }

  /** `xs[i]` is the first occurrence of `x`. */
  predicate FirstAt(xs: seq<string>, x: string, i: int)
  {
    0 <= i < |xs| && xs[i] == x && x !in xs[..i]
  }

  /** `xs.index(x)`. */
  function IndexOf(xs: seq<string>, x: string): (r: Option<nat>)
    ensures r.Some? <==> x in xs
    ensures r.Some? ==> FirstAt(xs, x, r.value)
  {
    if |xs| == 0 then None
    else if xs[0] == x then Some(0)
    else match IndexOf(xs[1..], x)
      case None => None
      case Some(i) =>
        assert xs[..i + 1] == [xs[0]] + xs[1..][..i];
        Some(i + 1)
  }

  datatype ColumnIndices = ColumnIndices(bucket: nat, key: nat, lastModified: nat)

  function MissingField(field: string): Error
  {
    ValueError("Inventory schema missing required field: " + field)
  }

  /**
   * `get_column_indices`: the first positions of Bucket, Key and
   * LastModifiedDate, or a ValueError naming the first of them (in that
   * order) that the schema lacks.
   */
  function GetColumnIndices(schema: string): (r: Result<ColumnIndices>)
    ensures var cols := Columns(schema);
            (r.Ok? <==> "Bucket" in cols && "Key" in cols && "LastModifiedDate" in cols)
            && ("Bucket" !in cols ==> r == Err(MissingField("Bucket")))
            && ("Bucket" in cols && "Key" !in cols ==> r == Err(MissingField("Key")))
            && (("Bucket" in cols && "Key" in cols && "LastModifiedDate" !in cols)
                ==> r == Err(MissingField("LastModifiedDate")))
            && (r.Ok? ==> FirstAt(cols, "Bucket", r.value.bucket) && FirstAt(cols, "Key", r.value.key)
                          && FirstAt(cols, "LastModifiedDate", r.value.lastModified))
  {
    var cols := Columns(schema);
    if "Bucket" !in cols then Err(MissingField("Bucket"))
    else if "Key" !in cols then Err(MissingField("Key"))
    else if "LastModifiedDate" !in cols then Err(MissingField("LastModifiedDate"))
    else Ok(ColumnIndices(IndexOf(cols, "Bucket").value, IndexOf(cols, "Key").value,
                          IndexOf(cols, "LastModifiedDate").value))
  }

  // ---------------------------------------------------------------------
  // manifest lines

  /** One manifest line, as `csv.writer` writes a (bucket, key) row. */
  datatype Entry = Entry(bucket: string, key: string)

  function CsvLine(e: Entry): string
  {
    e.bucket + "," + e.key + "\r\n"
  }

  /** The text of a manifest holding `es`, in order. */
  function Csv(es: seq<Entry>): string
  {
    if es == [] then "" else Csv(es[..|es| - 1]) + CsvLine(es[|es| - 1])
  }

  function Concat(parts: seq<string>): string
  {
    if parts == [] then "" else Concat(parts[..|parts| - 1]) + parts[|parts| - 1]
  }

  lemma CsvSnoc(es: seq<Entry>, e: Entry)
    ensures Csv(es + [e]) == Csv(es) + CsvLine(e)
  {
    assert (es + [e])[..|es|] == es;
  }

  lemma ConcatSnoc(parts: seq<string>, p: string)
    ensures Concat(parts + [p]) == Concat(parts) + p
  {
    assert (parts + [p])[..|parts|] == parts;
  }

  // ---------------------------------------------------------------------
  // the multipart buffer

  /**
   * The text buffer and the uploaded parts of one manifest. `written` is
   * every row written so far; the parts followed by the buffer spell them.
   */
  class PartWriter {
    var buffer: string
    var parts: seq<string>
    var partNumbers: seq<nat>
    var partNumber: nat
    var objectsFound: nat
    ghost var written: seq<Entry>

    /** Parts are numbered 1, 2, ... in upload order. */
    ghost predicate Numbered()
      reads this
    {
      |partNumbers| == |parts| && forall i :: 0 <= i < |parts| ==> partNumbers[i] == i + 1
    }

    ghost predicate Valid()
      reads this
    {
      Numbered() && partNumber == |parts| + 1 && objectsFound == |written|
      && Concat(parts) + buffer == Csv(written)
      && forall i :: 0 <= i < |parts| ==> |parts[i]| >= MinChunkSize
    }

    constructor ()
      ensures Valid() && written == [] && parts == [] && buffer == ""
    {
      buffer := "";
      parts := [];
      partNumbers := [];
      partNumber := 1;
      objectsFound := 0;
      written := [];
    }

    /** `writer.writerow([bucket, key])` and `objects_found += 1`. */
    method Write(e: Entry)
      requires Valid()
      modifies this
      ensures Valid() && written == old(written) + [e] && parts == old(parts)
      ensures buffer == old(buffer) + CsvLine(e)
    {
      CsvSnoc(written, e);
      buffer := buffer + CsvLine(e);
      objectsFound := objectsFound + 1;
      written := written + [e];
    }

    /** Upload the buffer as the next part once it holds at least 6 MiB. */
    method FlushIfFull()
      requires Valid()
      modifies this
      ensures Valid() && written == old(written)
      ensures |old(buffer)| >= MinChunkSize ==> parts == old(parts) + [old(buffer)] && buffer == ""
      ensures |old(buffer)| < MinChunkSize ==> parts == old(parts) && buffer == old(buffer)
    {
      if |buffer| >= MinChunkSize {
        ConcatSnoc(parts, buffer);
        parts := parts + [buffer];
        partNumbers := partNumbers + [partNumber];
        partNumber := partNumber + 1;
        buffer := "";
      }
    }

    /**
     * Upload what is left as the final part. Afterwards the parts spell all
     * rows, and every part but the last has at least 6 MiB.
     */
    method Finish()
      requires Valid()
      modifies this
      ensures written == old(written) && objectsFound == |written| && buffer == ""
      ensures Numbered() && Concat(parts) == Csv(written)
      ensures forall i :: 0 <= i < |parts| - 1 ==> |parts[i]| >= MinChunkSize
      ensures (parts == []) <==> (written == [])
    {
      if |buffer| > 0 {
        ConcatSnoc(parts, buffer);
        parts := parts + [buffer];
        partNumbers := partNumbers + [partNumber];
        buffer := "";
      }
      CsvEmpty(written);
      ConcatEmpty(parts);
    }
  }

  /** A manifest with a row has text. */
  lemma CsvEmpty(es: seq<Entry>)
    ensures Csv(es) == "" <==> es == []
  {
    if es != [] {
      assert |Csv(es)| >= |CsvLine(es[|es| - 1])|;
    }
  }

  /** Parts of at least 6 MiB spell a non-empty text. */
  lemma ConcatEmpty(parts: seq<string>)
    requires forall i :: 0 <= i < |parts| - 1 ==> |parts[i]| >= MinChunkSize
    requires parts != [] ==> |parts[|parts| - 1]| > 0
    ensures Concat(parts) == "" <==> parts == []
  {
    if parts != [] {
      assert |Concat(parts)| >= |parts[|parts| - 1]|;
    }
  }

  // ---------------------------------------------------------------------
  // streaming the inventory

  /**
   * The data-file key fix-up: the doubled source segment
   * `/src//src/` becomes `/src/`, then every `//` (left to right, not
   * overlapping) becomes `/`.
   */
  function NormaliseDataKey(source: string, key: string): (r: string)
    ensures |r| <= |key|
    ensures !Contains(key, "//") ==> r == key
  {
    var doubled := "/" + source + "//" + source + "/";
    ContainsInfix("/" + source, "//", source + "/");
    assert "/" + source + "//" + source + "/" == "/" + source + "//" + (source + "/");
    if Contains(key, doubled) then
      ContainsTransitive(key, doubled, "//");
      ReplaceAll(ReplaceAll(key, doubled, "/" + source + "/"), "//", "/")
    else
      ReplaceAll(key, "//", "/")
  }

  /** A row is written only when its object changed after the checkpoint. */
  predicate NewerThan(t: DateTime, checkpoint: Option<DateTime>)
  {
    checkpoint.None? || Before(checkpoint.value, t)
  }

  datatype RowOutcome = BadRow | Drop | Keep(entry: Entry)

  /**
   * One inventory row: too short for the columns raises IndexError; a date
   * that does not parse, a key outside the allowed prefixes or an object not
   * newer than the checkpoint is dropped; anything else becomes a line.
   */
  function SelectRow(cols: ColumnIndices, prefixes: seq<string>, checkpoint: Option<DateTime>,
                     row: seq<string>): (r: RowOutcome)
    ensures r.BadRow? <==> !(cols.bucket < |row| && cols.key < |row| && cols.lastModified < |row|)
    ensures r.Keep? <==>
              !r.BadRow? && ParseUtc(row[cols.lastModified]).Some?
              && (prefixes == [] || StartsWithAny(row[cols.key], prefixes))
              && NewerThan(ParseUtc(row[cols.lastModified]).value, checkpoint)
    ensures r.Keep? ==> r.entry == Entry(row[cols.bucket], row[cols.key])
  {
    if !(cols.bucket < |row| && cols.key < |row| && cols.lastModified < |row|) then BadRow
    else
      match ParseUtc(row[cols.lastModified])
        case None => Drop
        case Some(t) =>
          if prefixes != [] && !StartsWithAny(row[cols.key], prefixes) then Drop
          else if !NewerThan(t, checkpoint) then Drop
          else Keep(Entry(row[cols.bucket], row[cols.key]))
  }

  /** `SelectRow` with the run's columns, prefixes and checkpoint fixed. */
  function RowSelector(cols: ColumnIndices, prefixes: seq<string>, checkpoint: Option<DateTime>)
    : seq<string> -> RowOutcome
  {
    row => SelectRow(cols, prefixes, checkpoint, row)
  }

  /** The lines of a run of rows, or the IndexError of its first short row. */
  function SelectRows(select: seq<string> -> RowOutcome, rows: seq<seq<string>>): (r: Result<seq<Entry>>)
    ensures r.Ok? <==> forall i :: 0 <= i < |rows| ==> !select(rows[i]).BadRow?
    ensures r.Err? ==> r.error == IndexError("list index out of range")
  {
    if rows == [] then Ok([])
    else
      var init := rows[..|rows| - 1];
      assert forall i :: 0 <= i < |init| ==> init[i] == rows[i];
      match SelectRows(select, init)
        case Err(e) => Err(e)
        case Ok(es) =>
          match select(rows[|rows| - 1])
            case BadRow => Err(IndexError("list index out of range"))
            case Drop => Ok(es)
            case Keep(e) => Ok(es + [e])
  }

  /** Exactly the kept rows become lines, at most one per row. */
  lemma {:induction false} SelectRowsExactly(select: seq<string> -> RowOutcome, rows: seq<seq<string>>,
                                             e: Entry)
    requires SelectRows(select, rows).Ok?
    ensures e in SelectRows(select, rows).value
            <==> exists i :: 0 <= i < |rows| && select(rows[i]) == Keep(e)
    ensures |SelectRows(select, rows).value| <= |rows|
  {
    if rows != [] {
      var init := rows[..|rows| - 1];
      SelectRowsExactly(select, init, e);
      if exists i :: 0 <= i < |init| && select(init[i]) == Keep(e) {
        var i :| 0 <= i < |init| && select(init[i]) == Keep(e);
        assert rows[i] == init[i];
      }
      if exists i :: 0 <= i < |rows| && select(rows[i]) == Keep(e) {
        var i :| 0 <= i < |rows| && select(rows[i]) == Keep(e);
        if i < |init| {
          assert init[i] == rows[i];
        }
      }
    }
  }

  /**
   * The rows of one `files` entry: an empty entry or a data file that does
   * not exist contributes nothing; any other read error is raised.
   * `decode` stands for gunzip and CSV parsing.
   */
  function DataFileRows(store: Store, bucket: string, source: string,
                        decode: string -> seq<seq<string>>, fileKey: Option<string>)
    : Result<seq<seq<string>>>
    reads store
  {
    if !Truthy(fileKey) then Ok([])
    else
      match store.Get(Loc(bucket, NormaliseDataKey(source, fileKey.value)))
        case Err(ClientError("NoSuchKey")) => Ok([])
        case Err(e) => Err(e)
        case Ok(body) => Ok(decode(body))
  }

  /** The lines of all data files, in manifest order; the first error ends the run. */
  function SelectFiles(store: Store, bucket: string, source: string, decode: string -> seq<seq<string>>,
                       select: seq<string> -> RowOutcome, files: seq<Option<string>>): Result<seq<Entry>>
    reads store
  {
    if files == [] then Ok([])
    else
      match SelectFiles(store, bucket, source, decode, select, files[..|files| - 1])
        case Err(e) => Err(e)
        case Ok(es) =>
          match DataFileRows(store, bucket, source, decode, files[|files| - 1])
            case Err(e) => Err(e)
            case Ok(rows) =>
              match SelectRows(select, rows)
                case Err(e) => Err(e)
                case Ok(more) => Ok(es + more)
  }

  /** Once a data file fails, the files after it change nothing. */
  lemma {:induction false} SelectFilesErrorStays(store: Store, bucket: string, source: string,
                                                 decode: string -> seq<seq<string>>,
                                                 select: seq<string> -> RowOutcome,
                                                 files: seq<Option<string>>, i: nat)
    requires i <= |files| && SelectFiles(store, bucket, source, decode, select, files[..i]).Err?
    ensures SelectFiles(store, bucket, source, decode, select, files)
            == SelectFiles(store, bucket, source, decode, select, files[..i])
    decreases |files| - i
  {
    if i < |files| {
      assert files[..|files| - 1][..i] == files[..i];
      SelectFilesErrorStays(store, bucket, source, decode, select, files[..|files| - 1], i);
    } else {
      assert files[..i] == files;
    }
  }

  /** Once a row is too short, the rows after it change nothing. */
  lemma {:induction false} SelectRowsErrorStays(select: seq<string> -> RowOutcome, rows: seq<seq<string>>,
                                                j: nat)
    requires j <= |rows| && SelectRows(select, rows[..j]).Err?
    ensures SelectRows(select, rows) == SelectRows(select, rows[..j])
    decreases |rows| - j
  {
    if j < |rows| {
      assert rows[..|rows| - 1][..j] == rows[..j];
      SelectRowsErrorStays(select, rows[..|rows| - 1], j);
    } else {
      assert rows[..j] == rows;
    }
  }

  /** The parsed inventory `manifest.json`: the schema and the data-file keys. */
  datatype InventoryManifest = InventoryManifest(fileSchema: string, files: seq<Option<string>>)

  /**
   * What `stream_inventory_to_manifest` writes: starting the upload fails on
   * a bucket that cannot be used, then the schema must have its columns,
   * then every data file is read.
   */
  function StreamEntries(store: Store, bucket: string, manifest: InventoryManifest, source: string,
                         prefixes: seq<string>, checkpoint: Option<DateTime>,
                         decode: string -> seq<seq<string>>): Result<seq<Entry>>
    reads store
  {
    if bucket !in store.reachable then Err(ClientError("NoSuchBucket"))
    else
      match GetColumnIndices(manifest.fileSchema)
        case Err(e) => Err(e)
        case Ok(cols) =>
          SelectFiles(store, bucket, source, decode, RowSelector(cols, prefixes, checkpoint), manifest.files)
  }

  function TempManifestKey(source: string, uuid: string): string
  {
    "manifests/temp/" + source + "-" + uuid + ".csv"
  }

  /** Where a finished manifest is, and its ETag without quotes. */
  datatype ManifestInfo = ManifestInfo(bucket: string, key: string, etag: string)

  /** The rows of one data file, appended to the writer (the inner loop). */
  method StreamRows(w: PartWriter, select: seq<string> -> RowOutcome, rows: seq<seq<string>>)
    returns (r: Result<()>)
    requires w.Valid()
    modifies w
    ensures w.Valid()
    ensures r.Ok? <==> SelectRows(select, rows).Ok?
    ensures r.Ok? ==> w.written == old(w.written) + SelectRows(select, rows).value
    ensures r.Err? ==> r.error == SelectRows(select, rows).error
  {
    var j := 0;
    while j < |rows|
      invariant 0 <= j <= |rows| && w.Valid()
      invariant SelectRows(select, rows[..j]).Ok?
      invariant w.written == old(w.written) + SelectRows(select, rows[..j]).value
    {
      assert rows[..j + 1][..j] == rows[..j];
      match select(rows[j]) {
        case BadRow =>
          SelectRowsErrorStays(select, rows, j + 1);
          return Err(IndexError("list index out of range"));
        case Drop =>
        case Keep(e) =>
          w.Write(e);
          w.FlushIfFull();
      }
      j := j + 1;
    }
    assert rows[..j] == rows;
    r := Ok(());
  }

  /** Reading one data file named by the inventory manifest. */
  method ReadDataFile(store: Store, bucket: string, source: string, decode: string -> seq<seq<string>>,
                      fileKey: Option<string>) returns (r: Result<seq<seq<string>>>)
    ensures r == DataFileRows(store, bucket, source, decode, fileKey)
  {
    if !Truthy(fileKey) {
      return Ok([]);
    }
    var got := store.Get(Loc(bucket, NormaliseDataKey(source, fileKey.value)));
    if got.Err? {
      return if got.error == ClientError("NoSuchKey") then Ok([]) else Err(got.error);
    }
    r := Ok(decode(got.value));
  }

  /** The loop over the data files of the inventory. */
  method StreamFiles(store: Store, bucket: string, source: string, decode: string -> seq<seq<string>>,
                     select: seq<string> -> RowOutcome, files: seq<Option<string>>, w: PartWriter)
    returns (r: Result<()>)
    requires w.Valid() && w.written == []
    modifies w
    ensures w.Valid()
    ensures r.Ok? <==> SelectFiles(store, bucket, source, decode, select, files).Ok?
    ensures r.Ok? ==> w.written == SelectFiles(store, bucket, source, decode, select, files).value
    ensures r.Err? ==> r.error == SelectFiles(store, bucket, source, decode, select, files).error
  {
    var i := 0;
    while i < |files|
      invariant 0 <= i <= |files| && w.Valid()
      invariant SelectFiles(store, bucket, source, decode, select, files[..i]) == Ok(w.written)
    {
      var streamed := StreamFile(store, bucket, source, decode, select, files, i, w);
      if streamed.Err? {
        SelectFilesErrorStays(store, bucket, source, decode, select, files, i + 1);
        return streamed;
      }
      i := i + 1;
    }
    assert files[..i] == files;
    r := Ok(());
  }

  /** One pass of the loop over data files: read the `i`-th file and stream its rows. */
  method StreamFile(store: Store, bucket: string, source: string, decode: string -> seq<seq<string>>,
                    select: seq<string> -> RowOutcome, files: seq<Option<string>>, i: nat, w: PartWriter)
    returns (r: Result<()>)
    requires i < |files| && w.Valid()
    requires SelectFiles(store, bucket, source, decode, select, files[..i]) == Ok(w.written)
    modifies w
    ensures w.Valid()
    ensures r.Ok? ==> SelectFiles(store, bucket, source, decode, select, files[..i + 1]) == Ok(w.written)
    ensures r.Err? ==> SelectFiles(store, bucket, source, decode, select, files[..i + 1]) == Err(r.error)
  {
    assert files[..i + 1][..i] == files[..i];
    var rows := ReadDataFile(store, bucket, source, decode, files[i]);
    if rows.Err? {
      return Err(rows.error);
    }
    r := StreamRows(w, select, rows.value);
  }

  /**
   * `stream_inventory_to_manifest`. A manifest with rows is stored under a
   * fresh temporary key; no rows, or any error, leaves the store as it was
   * (the upload is aborted).
   */
  method StreamInventory(store: Store, bucket: string, manifest: InventoryManifest, source: string,
                         prefixes: seq<string>, checkpoint: Option<DateTime>,
                         decode: string -> seq<seq<string>>, uuid: string)
    returns (r: Result<Option<ManifestInfo>>, w: PartWriter)
    modifies store
    ensures fresh(w)
    ensures var spec := old(StreamEntries(store, bucket, manifest, source, prefixes, checkpoint, decode));
            (r.Err? <==> spec.Err?) && (r.Err? ==> r.error == spec.error)
            && (r == Ok(None) <==> spec == Ok([]))
            && (spec.Ok? ==> w.written == spec.value && Concat(w.parts) == Csv(spec.value)
                             && w.Numbered()
                             && forall i :: 0 <= i < |w.parts| - 1 ==> |w.parts[i]| >= MinChunkSize)
            && (r.Ok? && r.value.Some? ==>
                  r.value.value == ManifestInfo(bucket, TempManifestKey(source, uuid),
                                                StripQuotes(store.etagOf(Csv(spec.value))))
                  && store.objects == old(store.objects)[Loc(bucket, TempManifestKey(source, uuid)) := Csv(spec.value)])
            && (!(r.Ok? && r.value.Some?) ==> store.objects == old(store.objects))
  {
    w := new PartWriter();
    if !store.HeadBucket(bucket) {
      return Err(ClientError("NoSuchBucket")), w;
    }
    var colsOrError := GetColumnIndices(manifest.fileSchema);
    if colsOrError.Err? {
      return Err(colsOrError.error), w;
    }
    var select := RowSelector(colsOrError.value, prefixes, checkpoint);
    var streamed := StreamFiles(store, bucket, source, decode, select, manifest.files, w);
    if streamed.Err? {
      return Err(streamed.error), w;
    }
    w.Finish();
    if w.objectsFound == 0 {
      return Ok(None), w;
    }
    var tempKey := TempManifestKey(source, uuid);
    var body := Concat(w.parts);
    var _ := store.Put(Loc(bucket, tempKey), body);
    r := Ok(Some(ManifestInfo(bucket, tempKey, StripQuotes(store.etagOf(body)))));
  }

  // ---------------------------------------------------------------------
  // the fallback listing

  /** An object of the source bucket listing; its `LastModified` may be absent. */
  datatype SourceObject = SourceObject(key: string, lastModified: Option<DateTime>)

  /** Skipped only when the checkpoint and the date both exist and the date is not after it. */
  predicate Due(o: SourceObject, checkpoint: Option<DateTime>)
  {
    !(checkpoint.Some? && o.lastModified.Some? && NotAfter(o.lastModified.value, checkpoint.value))
  }

  /**
   * The limits checked after each written row: FALLBACK_MAX_OBJECTS, where 0
   * means none, and whether FALLBACK_TIME_LIMIT_SECONDS has run out once the
   * given number of rows is written.
   */
  datatype Limits = Limits(maxObjects: int, timeUp: nat -> bool)

  predicate Stop(limits: Limits, found: nat)
  {
    (limits.maxObjects != 0 && found >= limits.maxObjects) || limits.timeUp(found)
  }

  /**
   * The lines one page adds after `found` rows: every due object, until a
   * limit is hit, which ends this page.
   */
  function PageEntries(source: string, objs: seq<SourceObject>, checkpoint: Option<DateTime>,
                       limits: Limits, found: nat): seq<Entry>
    decreases |objs|
  {
    if objs == [] then []
    else if !Due(objs[0], checkpoint) then PageEntries(source, objs[1..], checkpoint, limits, found)
    else
      [Entry(source, objs[0].key)]
      + (if Stop(limits, found + 1) then [] else PageEntries(source, objs[1..], checkpoint, limits, found + 1))
  }

  /** The lines of the pages of one prefix, each page starting afresh after a limit. */
  function PagesEntries(source: string, pages: seq<seq<SourceObject>>, checkpoint: Option<DateTime>,
                        limits: Limits, found: nat): seq<Entry>
    decreases |pages|
  {
    if pages == [] then []
    else
      var first := PageEntries(source, pages[0], checkpoint, limits, found);
      first + PagesEntries(source, pages[1..], checkpoint, limits, found + |first|)
  }

  /** The prefixes listed: the criticality's allowed prefixes, or the whole bucket. */
  function ListingPrefixes(prefixes: seq<string>): (r: seq<string>)
    ensures |r| >= 1
  {
    if prefixes == [] then [""] else prefixes
  }

  function Prepend(done: seq<Entry>, r: Result<seq<Entry>>): Result<seq<Entry>>
  {
    match r
      case Ok(rest) => Ok(done + rest)
      case Err(e) => Err(e)
  }

  /** The lines of all prefixes in order; a listing that fails raises. */
  function ListingEntries(source: string, listing: string -> Result<seq<seq<SourceObject>>>,
                          prefixes: seq<string>, checkpoint: Option<DateTime>, limits: Limits,
                          found: nat): Result<seq<Entry>>
    decreases |prefixes|
  {
    if prefixes == [] then Ok([])
    else
      match listing(prefixes[0])
        case Err(e) => Err(e)
        case Ok(pages) =>
          var first := PagesEntries(source, pages, checkpoint, limits, found);
          Prepend(first, ListingEntries(source, listing, prefixes[1..], checkpoint, limits, found + |first|))
  }

  /** What `generate_manifest_from_listing` writes. */
  function FallbackEntries(store: Store, bucket: string, source: string, prefixes: seq<string>,
                           checkpoint: Option<DateTime>, listing: string -> Result<seq<seq<SourceObject>>>,
                           limits: Limits): Result<seq<Entry>>
    reads store
  {
    if bucket !in store.reachable then Err(ClientError("NoSuchBucket"))
    else ListingEntries(source, listing, ListingPrefixes(prefixes), checkpoint, limits, 0)
  }

  function Max(a: int, b: int): int
  {
    if a < b then b else a
  }

  /**
   * Under an object cap a page stops at the cap, or after one more row once
   * the cap has already been reached.
   */
  lemma {:induction false} PageEntriesBound(source: string, objs: seq<SourceObject>,
                                            checkpoint: Option<DateTime>, limits: Limits, found: nat)
    requires limits.maxObjects > 0
    ensures found + |PageEntries(source, objs, checkpoint, limits, found)| <= Max(limits.maxObjects, found + 1)
    ensures found >= limits.maxObjects ==> |PageEntries(source, objs, checkpoint, limits, found)| <= 1
    decreases |objs|
  {
    if objs != [] {
      if !Due(objs[0], checkpoint) {
        PageEntriesBound(source, objs[1..], checkpoint, limits, found);
      } else if !Stop(limits, found + 1) {
        PageEntriesBound(source, objs[1..], checkpoint, limits, found + 1);
      }
    }
  }

  /**
   * As written, the cap overshoots by at most one line per page: the break
   * leaves only the page loop, and every later page writes one row before
   * testing the cap again.
   */
  lemma {:induction false} PagesEntriesBound(source: string, pages: seq<seq<SourceObject>>,
                                             checkpoint: Option<DateTime>, limits: Limits, found: nat)
    requires limits.maxObjects > 0
    ensures found + |PagesEntries(source, pages, checkpoint, limits, found)|
            <= Max(limits.maxObjects, found) + |pages|
    decreases |pages|
  {
    if pages != [] {
      var first := PageEntries(source, pages[0], checkpoint, limits, found);
      PageEntriesBound(source, pages[0], checkpoint, limits, found);
      PagesEntriesBound(source, pages[1..], checkpoint, limits, found + |first|);
    }
  }

  /** Two pages of one new object each, under FALLBACK_MAX_OBJECTS = 1, give two lines. */
  lemma CapOverrunsAcrossPages()
    ensures var limits := Limits(1, n => false);
            PagesEntries("src", [[SourceObject("a", None)], [SourceObject("b", None)]], None, limits, 0)
            == [Entry("src", "a"), Entry("src", "b")]
  {
    var limits := Limits(1, n => false);
    assert Stop(limits, 1) && Stop(limits, 2);
    var page2 := [SourceObject("b", None)];
    assert PageEntries("src", page2, None, limits, 1) == [Entry("src", "b")];
  }

  /** The inner loop over one page of the listing. */
  method ListPage(w: PartWriter, source: string, objs: seq<SourceObject>, checkpoint: Option<DateTime>,
                  limits: Limits)
    requires w.Valid()
    modifies w
    ensures w.Valid()
    ensures w.written == old(w.written) + PageEntries(source, objs, checkpoint, limits, |old(w.written)|)
  {
    var j := 0;
    var stopped := false;
    ghost var done: seq<Entry> := [];
    ghost var spec := PageEntries(source, objs, checkpoint, limits, |old(w.written)|);
    assert objs[0..] == objs;
    while j < |objs| && !stopped
      invariant 0 <= j <= |objs| && w.Valid()
      invariant w.written == old(w.written) + done
      invariant stopped ==> spec == done
      invariant !stopped ==> spec == done + PageEntries(source, objs[j..], checkpoint, limits, |w.written|)
    {
      ghost var row := Row(source, objs[j], checkpoint);
      AppendAssoc(old(w.written), done, row);
      stopped := PageObject(w, source, objs, j, checkpoint, limits, done, spec);
      done := done + row;
      j := j + 1;
    }
    if !stopped {
      assert objs[j..] == [];
      assert done + [] == done;
    }
  }

  /** One pass of the page loop, with the rows it leaves to the rest of the page. */
  method PageObject(w: PartWriter, source: string, objs: seq<SourceObject>, j: nat, checkpoint: Option<DateTime>,
                    limits: Limits, ghost done: seq<Entry>, ghost spec: seq<Entry>)
    returns (stop: bool)
    requires j < |objs| && w.Valid()
    requires spec == done + PageEntries(source, objs[j..], checkpoint, limits, |w.written|)
    modifies w
    ensures w.Valid() && w.written == old(w.written) + Row(source, objs[j], checkpoint)
    ensures stop ==> spec == done + Row(source, objs[j], checkpoint)
    ensures !stop ==> spec == (done + Row(source, objs[j], checkpoint))
                              + PageEntries(source, objs[j + 1..], checkpoint, limits, |w.written|)
  {
    PageStep(source, objs, j, checkpoint, limits, |w.written|, done, spec);
    stop := ListObject(w, source, objs[j], checkpoint, limits);
  }

  /** The row a listed object adds: one when it is due, else none. */
  function Row(source: string, o: SourceObject, checkpoint: Option<DateTime>): seq<Entry>
  {
    if Due(o, checkpoint) then [Entry(source, o.key)] else []
  }

  /** The body of the page loop: a due object is written, the limits checked, a full buffer flushed. */
  method ListObject(w: PartWriter, source: string, o: SourceObject, checkpoint: Option<DateTime>, limits: Limits)
    returns (stop: bool)
    requires w.Valid()
    modifies w
    ensures w.Valid() && w.written == old(w.written) + Row(source, o, checkpoint)
    ensures stop <==> Due(o, checkpoint) && Stop(limits, |old(w.written)| + 1)
  {
    if !Due(o, checkpoint) {
      return false;
    }
    w.Write(Entry(source, o.key));
    if Stop(limits, w.objectsFound) {
      return true;
    }
    w.FlushIfFull();
    stop := false;
  }

  /** One step of the page loop, on the rows: a stop ends the page, otherwise the rest follows. */
  lemma PageStep(source: string, objs: seq<SourceObject>, j: nat, checkpoint: Option<DateTime>, limits: Limits,
                 found: nat, done: seq<Entry>, spec: seq<Entry>)
    requires j < |objs| && spec == done + PageEntries(source, objs[j..], checkpoint, limits, found)
    ensures var row := Row(source, objs[j], checkpoint);
            if Due(objs[j], checkpoint) && Stop(limits, found + 1) then spec == done + row
            else spec == (done + row) + PageEntries(source, objs[j + 1..], checkpoint, limits, found + |row|)
  {
    assert objs[j..][0] == objs[j];
    assert objs[j..][1..] == objs[j + 1..];
    var row := Row(source, objs[j], checkpoint);
    var rest := PageEntries(source, objs[j + 1..], checkpoint, limits, found + |row|);
    if !Due(objs[j], checkpoint) {
      assert done + [] == done;
    } else if !Stop(limits, found + 1) {
      assert done + (row + rest) == (done + row) + rest;
    }
  }

  /** The loop over the pages of one prefix. */
  method ListPages(w: PartWriter, source: string, pages: seq<seq<SourceObject>>,
                   checkpoint: Option<DateTime>, limits: Limits)
    requires w.Valid()
    modifies w
    ensures w.Valid()
    ensures w.written == old(w.written) + PagesEntries(source, pages, checkpoint, limits, |old(w.written)|)
  {
    var k := 0;
    ghost var done: seq<Entry> := [];
    ghost var spec := PagesEntries(source, pages, checkpoint, limits, |old(w.written)|);
    assert pages[0..] == pages;
    while k < |pages|
      invariant 0 <= k <= |pages| && w.Valid()
      invariant w.written == old(w.written) + done
      invariant spec == done + PagesEntries(source, pages[k..], checkpoint, limits, |w.written|)
    {
      ghost var page := PageEntries(source, pages[k], checkpoint, limits, |w.written|);
      AppendAssoc(old(w.written), done, page);
      ListPageOf(w, source, pages, k, checkpoint, limits, done, spec);
      done := done + page;
      k := k + 1;
    }
    assert pages[k..] == [];
    assert done + [] == done;
  }

  /** One pass of the loop over pages, with the rows it leaves to the pages after it. */
  method ListPageOf(w: PartWriter, source: string, pages: seq<seq<SourceObject>>, k: nat,
                    checkpoint: Option<DateTime>, limits: Limits, ghost done: seq<Entry>, ghost spec: seq<Entry>)
    requires k < |pages| && w.Valid()
    requires spec == done + PagesEntries(source, pages[k..], checkpoint, limits, |w.written|)
    modifies w
    ensures w.Valid()
    ensures w.written == old(w.written) + PageEntries(source, pages[k], checkpoint, limits, |old(w.written)|)
    ensures spec == (done + PageEntries(source, pages[k], checkpoint, limits, |old(w.written)|))
                    + PagesEntries(source, pages[k + 1..], checkpoint, limits, |w.written|)
  {
    ghost var page := PageEntries(source, pages[k], checkpoint, limits, |w.written|);
    PagesUnfold(source, pages, k, checkpoint, limits, |w.written|);
    AppendAssoc(done, page, PagesEntries(source, pages[k + 1..], checkpoint, limits, |w.written| + |page|));
    ListPage(w, source, pages[k], checkpoint, limits);
  }

  /** One step of the loop over pages: the `k`-th page, then the pages after it. */
  lemma PagesUnfold(source: string, pages: seq<seq<SourceObject>>, k: nat, checkpoint: Option<DateTime>,
                    limits: Limits, found: nat)
    requires k < |pages|
    ensures var page := PageEntries(source, pages[k], checkpoint, limits, found);
            PagesEntries(source, pages[k..], checkpoint, limits, found)
            == page + PagesEntries(source, pages[k + 1..], checkpoint, limits, found + |page|)
  {
    assert pages[k..][1..] == pages[k + 1..];
  }

  lemma AppendAssoc(a: seq<Entry>, b: seq<Entry>, c: seq<Entry>)
    ensures a + (b + c) == (a + b) + c
  {
  }

  /** The loop over the listed prefixes. */
  method ListPrefixes(w: PartWriter, source: string, listing: string -> Result<seq<seq<SourceObject>>>,
                      prefixes: seq<string>, checkpoint: Option<DateTime>, limits: Limits)
    returns (r: Result<()>)
    requires w.Valid() && w.written == []
    modifies w
    ensures w.Valid()
    ensures var spec := ListingEntries(source, listing, prefixes, checkpoint, limits, 0);
            (r.Ok? <==> spec.Ok?) && (r.Ok? ==> w.written == spec.value)
            && (r.Err? ==> r.error == spec.error)
  {
    var i := 0;
    PrependNothing(ListingEntries(source, listing, prefixes, checkpoint, limits, 0));
    assert prefixes[0..] == prefixes;
    while i < |prefixes|
      invariant 0 <= i <= |prefixes| && w.Valid()
      invariant ListingEntries(source, listing, prefixes, checkpoint, limits, 0)
                == Prepend(w.written, ListingEntries(source, listing, prefixes[i..], checkpoint, limits, |w.written|))
    {
      r := ListPrefix(w, source, listing, prefixes, i, checkpoint, limits);
      if r.Err? {
        return;
      }
      i := i + 1;
    }
    assert prefixes[i..] == [];
    PrependNone(w.written);
    r := Ok(());
  }

  /** One pass of the loop over prefixes: list the `i`-th prefix and write its pages. */
  method ListPrefix(w: PartWriter, source: string, listing: string -> Result<seq<seq<SourceObject>>>,
                    prefixes: seq<string>, i: nat, checkpoint: Option<DateTime>, limits: Limits)
    returns (r: Result<()>)
    requires i < |prefixes| && w.Valid()
    modifies w
    ensures w.Valid()
    ensures r.Err? ==> ListingEntries(source, listing, prefixes[i..], checkpoint, limits, |old(w.written)|)
                       == Err(r.error)
    ensures r.Ok? ==> Prepend(old(w.written), ListingEntries(source, listing, prefixes[i..], checkpoint, limits,
                                                             |old(w.written)|))
                      == Prepend(w.written, ListingEntries(source, listing, prefixes[i + 1..], checkpoint, limits,
                                                           |w.written|))
  {
    var pages := listing(prefixes[i]);
    if pages.Err? {
      ListingUnfold(source, listing, prefixes, i, checkpoint, limits, |w.written|);
      return Err(pages.error);
    }
    ghost var before := w.written;
    ghost var first := PagesEntries(source, pages.value, checkpoint, limits, |before|);
    ListingUnfoldOk(source, listing, prefixes, i, checkpoint, limits, pages.value, |before|);
    ListPages(w, source, pages.value, checkpoint, limits);
    PrependShift(before, first, w.written,
                 ListingEntries(source, listing, prefixes[i..], checkpoint, limits, |before|),
                 ListingEntries(source, listing, prefixes[i + 1..], checkpoint, limits, |w.written|));
    r := Ok(());
  }

  /** The `i`-th prefix lists `pages`: its rows come first, then those of the prefixes after it. */
  lemma ListingUnfoldOk(source: string, listing: string -> Result<seq<seq<SourceObject>>>, prefixes: seq<string>,
                        i: nat, checkpoint: Option<DateTime>, limits: Limits, pages: seq<seq<SourceObject>>,
                        found: nat)
    requires i < |prefixes| && listing(prefixes[i]) == Ok(pages)
    ensures ListingEntries(source, listing, prefixes[i..], checkpoint, limits, found)
            == Prepend(PagesEntries(source, pages, checkpoint, limits, found),
                       ListingEntries(source, listing, prefixes[i + 1..], checkpoint, limits,
                                      found + |PagesEntries(source, pages, checkpoint, limits, found)|))
  {
    ListingUnfold(source, listing, prefixes, i, checkpoint, limits, found);
  }

  /** Rows moved from the front of what is left to what is written. */
  lemma PrependShift(before: seq<Entry>, first: seq<Entry>, after: seq<Entry>,
                     whole: Result<seq<Entry>>, rest: Result<seq<Entry>>)
    requires whole == Prepend(first, rest) && after == before + first
    ensures Prepend(before, whole) == Prepend(after, rest)
  {
    PrependTwice(before, first, rest);
  }

  lemma PrependNone(done: seq<Entry>)
    ensures Prepend(done, Ok([])) == Ok(done)
  {
    assert done + [] == done;
  }

  lemma PrependNothing(r: Result<seq<Entry>>)
    ensures Prepend([], r) == r
  {
    if r.Ok? {
      assert [] + r.value == r.value;
    }
  }

  /** One step of the loop over prefixes: the `i`-th prefix's pages, then the prefixes after it. */
  lemma ListingUnfold(source: string, listing: string -> Result<seq<seq<SourceObject>>>, prefixes: seq<string>,
                      i: nat, checkpoint: Option<DateTime>, limits: Limits, found: nat)
    requires i < |prefixes|
    ensures listing(prefixes[i]).Err? ==>
              ListingEntries(source, listing, prefixes[i..], checkpoint, limits, found) == Err(listing(prefixes[i]).error)
    ensures listing(prefixes[i]).Ok? ==>
              var first := PagesEntries(source, listing(prefixes[i]).value, checkpoint, limits, found);
              ListingEntries(source, listing, prefixes[i..], checkpoint, limits, found)
              == Prepend(first, ListingEntries(source, listing, prefixes[i + 1..], checkpoint, limits, found + |first|))
  {
    assert prefixes[i..][0] == prefixes[i];
    assert prefixes[i..][1..] == prefixes[i + 1..];
  }

  lemma PrependTwice(a: seq<Entry>, b: seq<Entry>, r: Result<seq<Entry>>)
    ensures Prepend(a, Prepend(b, r)) == Prepend(a + b, r)
  {
    if r.Ok? {
      assert a + (b + r.value) == (a + b) + r.value;
    }
  }

  /**
   * `generate_manifest_from_listing`: the same upload as the inventory
   * path, fed from `list_objects_v2` of the source bucket.
   */
  method GenerateFromListing(store: Store, bucket: string, source: string, prefixes: seq<string>,
                             checkpoint: Option<DateTime>, listing: string -> Result<seq<seq<SourceObject>>>,
                             limits: Limits, uuid: string)
    returns (r: Result<Option<ManifestInfo>>, w: PartWriter)
    modifies store
    ensures fresh(w)
    ensures var spec := old(FallbackEntries(store, bucket, source, prefixes, checkpoint, listing, limits));
            (r.Err? <==> spec.Err?) && (r.Err? ==> r.error == spec.error)
            && (r == Ok(None) <==> spec == Ok([]))
            && (spec.Ok? ==> w.written == spec.value && Concat(w.parts) == Csv(spec.value)
                             && w.Numbered()
                             && forall i :: 0 <= i < |w.parts| - 1 ==> |w.parts[i]| >= MinChunkSize)
            && (r.Ok? && r.value.Some? ==>
                  r.value.value == ManifestInfo(bucket, TempManifestKey(source, uuid),
                                                StripQuotes(store.etagOf(Csv(spec.value))))
                  && store.objects == old(store.objects)[Loc(bucket, TempManifestKey(source, uuid)) := Csv(spec.value)])
            && (!(r.Ok? && r.value.Some?) ==> store.objects == old(store.objects))
  {
    w := new PartWriter();
    if !store.HeadBucket(bucket) {
      return Err(ClientError("NoSuchBucket")), w;
    }
    var listed := ListPrefixes(w, source, listing, ListingPrefixes(prefixes), checkpoint, limits);
    if listed.Err? {
      return Err(listed.error), w;
    }
    w.Finish();
    if w.objectsFound == 0 {
      return Ok(None), w;
    }
    var tempKey := TempManifestKey(source, uuid);
    var body := Concat(w.parts);
    var _ := store.Put(Loc(bucket, tempKey), body);
    r := Ok(Some(ManifestInfo(bucket, tempKey, StripQuotes(store.etagOf(body)))));
  }

  // ---------------------------------------------------------------------
  // the latest inventory manifest

  predicate IsInventoryManifest(key: string)
  {
    EndsWith(key, "manifest.json")
  }

  /** The listing prefix: `inventory_key` with a slash appended when it lacks one. */
  function InventoryPrefix(prefix: string): (r: string)
    ensures EndsWith(r, "/") && StartsWith(r, prefix)
    ensures EndsWith(prefix, "/") ==> r == prefix
    ensures |r| <= |prefix| + 1
  {
    if EndsWith(prefix, "/") then prefix else prefix + "/"
  }

  /** The key `find_latest_inventory_manifest` answers for a listing. */
  ghost function LatestInventoryManifest(listing: Result<seq<ListedObject>>): Option<string>
  {
    if listing.Err? then None
    else match NewestOf(listing.value, IsInventoryManifest)
      case None => None
      case Some(i) => Some(listing.value[i].key)
  }

  /**
   * `find_latest_inventory_manifest` given the listing under the prefix:
   * the key of the first newest `manifest.json`, and nothing when the
   * listing fails.
   */
  method FindLatestInventoryManifest(listing: Result<seq<ListedObject>>) returns (r: Option<string>)
    ensures listing.Err? ==> r.None?
    ensures listing.Ok? ==>
              (r.None? <==> forall j :: 0 <= j < |listing.value| ==> !IsInventoryManifest(listing.value[j].key))
    ensures listing.Ok? && r.Some? ==>
              exists i :: NewestAt(listing.value, IsInventoryManifest, i) && listing.value[i].key == r.value
    ensures r == LatestInventoryManifest(listing)
  {
    if listing.Err? {
      return None;
    }
    var found := Newest(listing.value, IsInventoryManifest);
    if found.None? {
      return None;
    }
    r := Some(listing.value[found.value].key);
  }

  // ---------------------------------------------------------------------
  // this lambda's own checkpoint helpers

  /** `read_checkpoint` of the lambda: every failure, even a malformed timestamp, reads as none. */
  function LenientCheckpoint(got: Result<string>): (r: Option<DateTime>)
    ensures r.Some? <==> got.Ok? && ParseIso(got.value).Some?
    ensures r.Some? ==> Valid(r.value) && r == ParseIso(got.value)
  {
    match Checkpoints.CheckpointOf(got)
      case Ok(c) => c
      case Err(_) => None
  }

  function ReadCheckpointLenient(store: Store, bucket: string, source: string, backupType: string)
    : Option<DateTime>
    reads store
  {
    LenientCheckpoint(store.Get(Loc(bucket, Checkpoints.CheckpointKey(source, backupType))))
  }

  /** `write_checkpoint` of the lambda: a failed write is logged and forgotten. */
  method WriteCheckpointLenient(store: Store, bucket: string, source: string, backupType: string, t: DateTime)
    requires Valid(t)
    modifies store
    ensures store.objects == if bucket in store.reachable
      then old(store.objects)[Loc(bucket, Checkpoints.CheckpointKey(source, backupType)) := IsoFormat(t)]
      else old(store.objects)
    ensures bucket in store.reachable ==> ReadCheckpointLenient(store, bucket, source, backupType) == Some(t)
  {
    var _ := store.Put(Loc(bucket, Checkpoints.CheckpointKey(source, backupType)), IsoFormat(t));
    Checkpoints.ReadWhatWasWritten(t);
  }

  // ---------------------------------------------------------------------
  // the run type and the checkpoint it records

  /**
   * The backup type the run uses: an incremental run without a checkpoint
   * becomes full when FORCE_FULL_ON_FIRST_RUN is set.
   */
  function EffectiveType(backupType: string, last: Option<DateTime>, forceFullOnFirstRun: bool): (r: string)
    ensures r == "full" <==> backupType == "full" || (backupType == "incremental" && last.None? && forceFullOnFirstRun)
    ensures r == backupType || r == "full"
  {
    if backupType == "incremental" && last.None? && forceFullOnFirstRun then "full" else backupType
  }

  /** The checkpoint handed to the generators: none for a full run. */
  function GeneratorCheckpoint(effective: string, last: Option<DateTime>): Option<DateTime>
  {
    if effective == "full" then None else last
  }

  /** The type the checkpoint is written under, as written: the effective type whenever the flag is set. */
  function CheckpointType(backupType: string, effective: string, forceFullOnFirstRun: bool): string
  {
    if forceFullOnFirstRun then effective else backupType
  }

  lemma FullAndIncrementalKeysDiffer(source: string)
    ensures Checkpoints.CheckpointKey(source, "full") != Checkpoints.CheckpointKey(source, "incremental")
  {
    assert |Checkpoints.CheckpointKey(source, "full")| < |Checkpoints.CheckpointKey(source, "incremental")|;
  }

  /**
   * As written, a forced first run records its checkpoint under "full", so
   * the "incremental" checkpoint is still missing and the next incremental
   * run is forced to full again, and so on for every run.
   */
  lemma ForcedFirstRunStaysForced(objects: map<Loc, string>, reachable: set<string>, bucket: string,
                                  source: string, now: DateTime)
    requires LenientCheckpoint(Lookup(objects, reachable, Loc(bucket, Checkpoints.CheckpointKey(source, "incremental")))).None?
    ensures var effective := EffectiveType("incremental", None, true);
            var after := objects[Loc(bucket, Checkpoints.CheckpointKey(source, CheckpointType("incremental", effective, true)))
                                 := IsoFormat(now)];
            var next := LenientCheckpoint(Lookup(after, reachable, Loc(bucket, Checkpoints.CheckpointKey(source, "incremental"))));
            effective == "full" && next.None? && EffectiveType("incremental", next, true) == "full"
  {
    FullAndIncrementalKeysDiffer(source);
  }

  /** The evidently intended checkpoint type: the one the run was asked for. */
  function IntendedCheckpointType(backupType: string, effective: string): (r: string)
    ensures effective == "full" && backupType == "incremental" ==> r != effective
  {
    backupType
  }

  /**
   * Recording the requested type, a forced first run leaves an incremental
   * checkpoint, and the next incremental run is not forced and filters from
   * the instant of the first one.
   */
  lemma IntendedFirstRunRecordsIncremental(objects: map<Loc, string>, reachable: set<string>, bucket: string,
                                           source: string, now: DateTime)
    requires bucket in reachable && Valid(now)
    ensures var effective := EffectiveType("incremental", None, true);
            var after := objects[Loc(bucket, Checkpoints.CheckpointKey(source, IntendedCheckpointType("incremental", effective)))
                                 := IsoFormat(now)];
            var next := LenientCheckpoint(Lookup(after, reachable, Loc(bucket, Checkpoints.CheckpointKey(source, "incremental"))));
            next == Some(now) && EffectiveType("incremental", next, true) == "incremental"
            && GeneratorCheckpoint(EffectiveType("incremental", next, true), next) == Some(now)
  {
    Checkpoints.ReadWhatWasWritten(now);
  }

  // ---------------------------------------------------------------------
  // the handler

  /** The fields of the Step Functions input; a missing one is `None`. */
  datatype FilterEvent = FilterEvent(backupBucket: Option<string>, sourceBucket: Option<string>,
                                     backupType: Option<string>, inventoryKey: Option<string>,
                                     criticality: Option<string>)

  /**
   * The environment: FORCE_FULL_ON_FIRST_RUN, ALLOWED_PREFIXES and the
   * fallback limits.
   */
  datatype Settings = Settings(forceFullOnFirstRun: bool, allowed: map<string, seq<string>>, limits: Limits)

  function PrefixesFor(settings: Settings, criticality: string): seq<string>
  {
    if criticality in settings.allowed then settings.allowed[criticality] else []
  }

  datatype FilterResult =
    | Failed(reason: Error)
    | Empty
    | Success(manifest: ManifestInfo, manifestKey: Option<string>, sourceBucket: string,
              backupType: string, criticality: string)

  /**
   * The rows a run writes: from the inventory when a manifest was found
   * (reading or decoding that manifest may raise), otherwise from the
   * listing of the source bucket.
   */
  function RunEntries(store: Store, settings: Settings, backupBucket: string, source: string, criticality: string,
                      manifestKey: Option<string>, parseManifest: string -> Result<InventoryManifest>,
                      decode: string -> seq<seq<string>>, listing: string -> Result<seq<seq<SourceObject>>>,
                      checkpoint: Option<DateTime>): Result<seq<Entry>>
    reads store
  {
    if Truthy(manifestKey) then
      match store.Get(Loc(backupBucket, manifestKey.value))
        case Err(e) => Err(e)
        case Ok(text) =>
          match parseManifest(text)
            case Err(e) => Err(e)
            case Ok(m) =>
              StreamEntries(store, backupBucket, m, source, PrefixesFor(settings, criticality), checkpoint, decode)
    else
      FallbackEntries(store, backupBucket, source, PrefixesFor(settings, criticality), checkpoint, listing,
                      settings.limits)
  }

  lemma TempAndCheckpointKeysDiffer(source: string, uuid: string, backupType: string)
    ensures TempManifestKey(source, uuid) != Checkpoints.CheckpointKey(source, backupType)
  {
    assert TempManifestKey(source, uuid)[0] == 'm' && Checkpoints.CheckpointKey(source, backupType)[0] == 'c';
  }

  /**
   * The handler once the event's fields and the latest manifest are known:
   * the run type from the checkpoint, the manifest, and on success the
   * checkpoint at the current instant, recorded under the requested type
   * (the corrected `IntendedCheckpointType`).
   */
  method Run(settings: Settings, store: Store, backupBucket: string, source: string, backupType: string,
             criticality: string, manifestKey: Option<string>,
             parseManifest: string -> Result<InventoryManifest>, decode: string -> seq<seq<string>>,
             listing: string -> Result<seq<seq<SourceObject>>>, uuid: string, now: DateTime)
    returns (out: FilterResult)
    requires Valid(now)
    modifies store
    ensures var last := old(ReadCheckpointLenient(store, backupBucket, source, backupType));
            var effective := EffectiveType(backupType, last, settings.forceFullOnFirstRun);
            var spec := old(RunEntries(store, settings, backupBucket, source, criticality, manifestKey,
                                       parseManifest, decode, listing, GeneratorCheckpoint(effective, last)));
            (out.Failed? <==> spec.Err?) && (out.Failed? ==> out.reason == spec.error)
            && (out.Empty? <==> spec == Ok([]))
            && (out.Success? ==>
                  out == Success(ManifestInfo(backupBucket, TempManifestKey(source, uuid),
                                              StripQuotes(store.etagOf(Csv(spec.value)))),
                                 manifestKey, source, effective, criticality)
                  && store.objects
                     == old(store.objects)[Loc(backupBucket, TempManifestKey(source, uuid)) := Csv(spec.value)]
                                          [Loc(backupBucket, Checkpoints.CheckpointKey(source, IntendedCheckpointType(backupType, effective)))
                                           := IsoFormat(now)])
            && (!out.Success? ==> store.objects == old(store.objects))
  {
    var last := ReadCheckpointLenient(store, backupBucket, source, backupType);
    var effective := EffectiveType(backupType, last, settings.forceFullOnFirstRun);
    var checkpoint := GeneratorCheckpoint(effective, last);
    var prefixes := PrefixesFor(settings, criticality);
    var info: Result<Option<ManifestInfo>>;
    if Truthy(manifestKey) {
      var got := store.Get(Loc(backupBucket, manifestKey.value));
      if got.Err? {
        return Failed(got.error);
      }
      var m := parseManifest(got.value);
      if m.Err? {
        return Failed(m.error);
      }
      var writer;
      info, writer := StreamInventory(store, backupBucket, m.value, source, prefixes, checkpoint, decode, uuid);
    } else {
      var writer;
      info, writer := GenerateFromListing(store, backupBucket, source, prefixes, checkpoint, listing,
                                      settings.limits, uuid);
    }
    if info.Err? {
      return Failed(info.error);
    }
    if info.value.None? {
      return Empty;
    }
    TempAndCheckpointKeysDiffer(source, uuid, IntendedCheckpointType(backupType, effective));
    WriteCheckpointLenient(store, backupBucket, source, IntendedCheckpointType(backupType, effective), now);
    out := Success(info.value.value, manifestKey, source, effective, criticality);
  }

  /**
   * `lambda_handler`: a missing required field fails the run; otherwise the
   * newest inventory manifest under the prefix picks the generator.
   */
  method Handle(settings: Settings, event: FilterEvent, store: Store,
                listInventory: string -> Result<seq<ListedObject>>,
                parseManifest: string -> Result<InventoryManifest>, decode: string -> seq<seq<string>>,
                listing: string -> Result<seq<seq<SourceObject>>>, uuid: string, now: DateTime)
    returns (out: FilterResult)
    requires Valid(now)
    modifies store
    ensures event.backupBucket.None? ==> out == Failed(KeyError("backup_bucket"))
    ensures event.backupBucket.Some? && event.sourceBucket.None? ==> out == Failed(KeyError("source_bucket"))
    ensures (event.backupBucket.Some? && event.sourceBucket.Some? && event.backupType.None?)
            ==> out == Failed(KeyError("backup_type"))
    ensures (event.backupBucket.Some? && event.sourceBucket.Some? && event.backupType.Some?
             && event.inventoryKey.None?) ==> out == Failed(KeyError("inventory_key"))
    ensures !out.Success? ==> store.objects == old(store.objects)
    ensures out.Success? ==>
              event.backupBucket.Some? && event.sourceBucket.Some? && event.backupType.Some?
              && event.inventoryKey.Some?
              && out.sourceBucket == event.sourceBucket.value
              && out.criticality == (if event.criticality.Some? then event.criticality.value else "MenosCritico")
              && out.manifest.bucket == event.backupBucket.value
              && out.manifest.key == TempManifestKey(event.sourceBucket.value, uuid)
              && (out.backupType == "full" || out.backupType == event.backupType.value)
    ensures out.Success? && out.manifestKey.Some? ==>
              var listed := listInventory(InventoryPrefix(event.inventoryKey.value));
              listed.Ok? && exists i :: NewestAt(listed.value, IsInventoryManifest, i)
                                        && listed.value[i].key == out.manifestKey.value
    ensures event.backupBucket.Some? && event.sourceBucket.Some? && event.backupType.Some? && event.inventoryKey.Some?
            ==> var bucket, source, backupType := event.backupBucket.value, event.sourceBucket.value, event.backupType.value;
                var criticality := if event.criticality.Some? then event.criticality.value else "MenosCritico";
                var manifestKey := LatestInventoryManifest(listInventory(InventoryPrefix(event.inventoryKey.value)));
                var last := old(ReadCheckpointLenient(store, bucket, source, backupType));
                var effective := EffectiveType(backupType, last, settings.forceFullOnFirstRun);
                var spec := old(RunEntries(store, settings, bucket, source, criticality, manifestKey,
                                           parseManifest, decode, listing, GeneratorCheckpoint(effective, last)));
                (out.Failed? <==> spec.Err?) && (out.Failed? ==> out.reason == spec.error)
                && (out.Empty? <==> spec == Ok([]))
                && (out.Success? ==>
                      out == Success(ManifestInfo(bucket, TempManifestKey(source, uuid),
                                                  StripQuotes(store.etagOf(Csv(spec.value)))),
                                     manifestKey, source, effective, criticality)
                      && store.objects
                         == old(store.objects)[Loc(bucket, TempManifestKey(source, uuid)) := Csv(spec.value)]
                                              [Loc(bucket, Checkpoints.CheckpointKey(source, IntendedCheckpointType(backupType, effective)))
                                               := IsoFormat(now)])
  {
    if event.backupBucket.None? {
      return Failed(KeyError("backup_bucket"));
    }
    if event.sourceBucket.None? {
      return Failed(KeyError("source_bucket"));
    }
    if event.backupType.None? {
      return Failed(KeyError("backup_type"));
    }
    if event.inventoryKey.None? {
      return Failed(KeyError("inventory_key"));
    }
    var criticality := if event.criticality.Some? then event.criticality.value else "MenosCritico";
    var manifestKey := FindLatestInventoryManifest(listInventory(InventoryPrefix(event.inventoryKey.value)));
    out := Run(settings, store, event.backupBucket.value, event.sourceBucket.value, event.backupType.value,
               criticality, manifestKey, parseManifest, decode, listing, uuid, now);
  }
}
