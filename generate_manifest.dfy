/**
 * The manifest generator of the restore service: it lists a prefix of a
 * source bucket and writes one `bucket,key` row per object into a new
 * manifest object, refusing to write an empty one.
 */
module GenerateManifest {
  import opened Base
  import opened Strings
  import opened ObjectStore

  /** DEFAULT_MANIFEST_BUCKET and DEFAULT_MANIFEST_PREFIX (`restore-manifests/` when unset). */
  datatype Env = Env(defaultBucket: string, defaultPrefix: string)

  /** The fields of the event; an absent one is `None`. */
  datatype GenerateEvent = GenerateEvent(sourceBucket: Option<string>, sourcePrefix: Option<string>,
                                         manifestBucket: Option<string>, manifestPrefix: Option<string>)

  datatype Output = Output(bucket: string, key: string, objectCount: nat, sourceBucket: string,
                           sourcePrefix: string)

  /** `_normalized_prefix`: the value with a trailing slash added when it has none. */
  function NormalizedPrefix(value: string): (r: string)
    ensures EndsWith(r, "/")
    ensures StartsWith(r, value) && |r| <= |value| + 1
    ensures EndsWith(value, "/") ==> r == value
  {
    if EndsWith(value, "/") then value else value + "/"
  }

  /** Normalising twice changes nothing more, and the empty prefix becomes the root `/`. */
  lemma NormalizedPrefixIdempotent(value: string)
    ensures NormalizedPrefix(NormalizedPrefix(value)) == NormalizedPrefix(value)
    ensures NormalizedPrefix("") == "/"
  {
  }

  // ---------------------------------------------------------------------
  // the rows

  /** A listed object yields a row unless its key is missing, empty or a folder marker. */
  predicate Keep(key: Option<string>)
  {
    key.Some? && key.value != "" && !EndsWith(key.value, "/")
  }

  /** The keys that yield rows, in listing order. */
  function KeptKeys(listing: seq<Option<string>>): (r: seq<string>)
    ensures |r| <= |listing|
    ensures forall k :: k in r <==> exists i :: 0 <= i < |listing| && listing[i] == Some(k) && Keep(listing[i])
  {
    if listing == [] then []
    else
      var rest := KeptKeys(listing[..|listing| - 1]);
      var last := listing[|listing| - 1];
      assert forall i :: 0 <= i < |listing| - 1 ==> listing[..|listing| - 1][i] == listing[i];
      if Keep(last) then rest + [last.value] else rest
  }

  /** Keeping commutes with concatenation, so rows keep the listing order. */
  lemma {:induction false} KeptKeysAppend(a: seq<Option<string>>, b: seq<Option<string>>)
    ensures KeptKeys(a + b) == KeptKeys(a) + KeptKeys(b)
    decreases |b|
  {
    if b == [] {
      assert a + b == a;
    } else {
      var b' := b[..|b| - 1];
      assert (a + b)[..|a + b| - 1] == a + b';
      KeptKeysAppend(a, b');
    }
  }

  function Row(bucket: string, key: string): string
  {
    bucket + "," + key + "\r\n"
  }

  /** The manifest text: one row per key, in order. */
  function Rows(bucket: string, keys: seq<string>): string
  {
    if keys == [] then "" else Rows(bucket, keys[..|keys| - 1]) + Row(bucket, keys[|keys| - 1])
  }

  /** The manifest text is empty exactly when there are no rows. */
  lemma RowsEmpty(bucket: string, keys: seq<string>)
    ensures Rows(bucket, keys) == "" <==> keys == []
  {
    if keys != [] {
      assert |Rows(bucket, keys)| >= |Row(bucket, keys[|keys| - 1])| > 0;
    }
  }

  /** The loop of the handler: the rows written and the objects counted. */
  method WriteRows(source: string, listing: seq<Option<string>>) returns (buffer: string, total: nat)
    ensures buffer == Rows(source, KeptKeys(listing))
    ensures total == |KeptKeys(listing)|
  {
    buffer := "";
    total := 0;
    var i := 0;
    while i < |listing|
      invariant 0 <= i <= |listing|
      invariant buffer == Rows(source, KeptKeys(listing[..i])) && total == |KeptKeys(listing[..i])|
    {
      KeptKeysStep(listing, i);
      var key := listing[i];
      if Keep(key) {
        RowsSnoc(source, KeptKeys(listing[..i]), key.value);
        buffer := buffer + Row(source, key.value);
        total := total + 1;
      }
      i := i + 1;
    }
    assert listing[..i] == listing;
  }

  lemma KeptKeysStep(listing: seq<Option<string>>, i: nat)
    requires i < |listing|
    ensures Keep(listing[i]) ==> KeptKeys(listing[..i + 1]) == KeptKeys(listing[..i]) + [listing[i].value]
    ensures !Keep(listing[i]) ==> KeptKeys(listing[..i + 1]) == KeptKeys(listing[..i])
  {
    assert listing[..i + 1][..i] == listing[..i];
  }

  lemma RowsSnoc(bucket: string, keys: seq<string>, key: string)
    ensures Rows(bucket, keys + [key]) == Rows(bucket, keys) + Row(bucket, key)
  {
    assert (keys + [key])[..|keys|] == keys;
  }

  // ---------------------------------------------------------------------
  // the handler

  /** The manifest key under a normalised prefix: its trailing slashes dropped, then the run's file name. */
  function ManifestKey(prefix: string, runId: string): string
  {
    RStrip(prefix, {'/'}) + "/manifest-" + runId + ".csv"
  }

  /**
   * Under a prefix with a single trailing slash (the default one among
   * them) the manifest lies directly inside the prefix.
   */
  lemma ManifestKeyUnderPrefix(prefix: string, runId: string)
    requires EndsWith(prefix, "/") && (|prefix| == 1 || prefix[|prefix| - 2] != '/')
    ensures ManifestKey(prefix, runId) == prefix + "manifest-" + runId + ".csv"
    ensures StartsWith(ManifestKey(prefix, runId), prefix)
  {
    SingleSlashStem(prefix);
    var stem := RStrip(prefix, {'/'});
    assert stem + "/manifest-" == (stem + "/") + "manifest-";
    var key := ManifestKey(prefix, runId);
    assert key == prefix + "manifest-" + runId + ".csv";
    assert key == prefix + ("manifest-" + runId + ".csv");
    assert key[..|prefix|] == prefix;
  }

  /** Dropping the single trailing slash of a prefix and putting one back gives the prefix. */
  lemma SingleSlashStem(prefix: string)
    requires EndsWith(prefix, "/") && (|prefix| == 1 || prefix[|prefix| - 2] != '/')
    ensures RStrip(prefix, {'/'}) + "/" == prefix
  {
    var stem := prefix[..|prefix| - 1];
    assert prefix == stem + "/";
    assert RStrip(prefix, {'/'}) == RStrip(stem, {'/'}) == stem;
  }

  /**
   * `lambda_handler`. A missing source bucket raises before anything is
   * listed; a listing error propagates; no rows raise before anything is
   * written. Otherwise the rows of every kept key are written to the
   * manifest key and the store changes there only.
   */
  method Handle(env: Env, event: GenerateEvent, store: Store,
                listing: string -> Result<seq<Option<string>>>, runId: string) returns (r: Result<Output>)
    modifies store
    ensures !Truthy(event.sourceBucket) ==> r.Err? && r.error.ValueError?
    ensures r.Err? ==> store.objects == old(store.objects)
    ensures (Truthy(event.sourceBucket) && listing(OrElse(event.sourcePrefix, "")).Ok?
             && KeptKeys(listing(OrElse(event.sourcePrefix, "")).value) == [])
            ==> r.Err? && r.error.ValueError?
    ensures r.Ok? ==>
              Truthy(event.sourceBucket) && listing(OrElse(event.sourcePrefix, "")).Ok?
              && var source := event.sourceBucket.value;
                 var keys := KeptKeys(listing(OrElse(event.sourcePrefix, "")).value);
                 var bucket := OrElse(event.manifestBucket, env.defaultBucket);
                 var key := ManifestKey(NormalizedPrefix(OrElse(event.manifestPrefix, env.defaultPrefix)), runId);
                 r.value == Output(bucket, key, |keys|, source, OrElse(event.sourcePrefix, ""))
                 && |keys| > 0
                 && store.objects == old(store.objects)[Loc(bucket, key) := Rows(source, keys)]
    ensures r.Ok? <==>
              Truthy(event.sourceBucket) && listing(OrElse(event.sourcePrefix, "")).Ok?
              && KeptKeys(listing(OrElse(event.sourcePrefix, "")).value) != []
              && OrElse(event.manifestBucket, env.defaultBucket) in store.reachable
  {
    if !Truthy(event.sourceBucket) {
      return Err(ValueError("sourceBucket es obligatorio para el modo prefix"));
    }
    var source := event.sourceBucket.value;
    var sourcePrefix := OrElse(event.sourcePrefix, "");
    var manifestBucket := OrElse(event.manifestBucket, env.defaultBucket);
    var manifestPrefix := NormalizedPrefix(OrElse(event.manifestPrefix, env.defaultPrefix));
    var listed := listing(sourcePrefix);
    if listed.Err? {
      return Err(listed.error);
    }
    var buffer, total := WriteRows(source, listed.value);
    if total == 0 {
      return Err(ValueError("No se encontraron objetos para el prefijo indicado"));
    }
    var manifestKey := ManifestKey(manifestPrefix, runId);
    var put := store.Put(Loc(manifestBucket, manifestKey), buffer);
    if put.Err? {
      return Err(put.error);
    }
    r := Ok(Output(manifestBucket, manifestKey, total, source, sourcePrefix));
  }
}
