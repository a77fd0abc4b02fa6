/**
 * Object listings as the backup code walks them: `list_objects_v2` pages
 * flattened in order, each object with its key and `LastModified`. Several
 * scripts keep the newest object whose key passes a test, replacing the
 * running choice only on a strictly newer one, so the first of equally new
 * objects wins.
 */
module Listings {
  import opened Base
  import opened Stamps

  datatype ListedObject = ListedObject(key: string, modified: DateTime)

  /** `objs[i]` is the first of the newest objects whose key passes `ok`. */
  predicate NewestAt(objs: seq<ListedObject>, ok: string -> bool, i: int)
  {
    0 <= i < |objs| && ok(objs[i].key)
    && (forall j :: 0 <= j < |objs| && ok(objs[j].key) ==> NotAfter(objs[j].modified, objs[i].modified))
    && (forall j :: 0 <= j < i && ok(objs[j].key) ==> Before(objs[j].modified, objs[i].modified))
  }

  /** At most one position is the first of the newest. */
  lemma NewestUnique(objs: seq<ListedObject>, ok: string -> bool, i: int, k: int)
    requires NewestAt(objs, ok, i) && NewestAt(objs, ok, k)
    ensures i == k
  {
  }

  /** The first of the newest objects whose key passes `ok`, if any passes. */
  ghost function NewestOf(objs: seq<ListedObject>, ok: string -> bool): (r: Option<nat>)
    ensures r.Some? ==> NewestAt(objs, ok, r.value)
  {
    if exists i :: NewestAt(objs, ok, i) then
      var i :| NewestAt(objs, ok, i);
      Some(i)
    else None
  }

  /** The running-maximum loop: `if best is None or obj.modified > best.modified`. */
  method Newest(objs: seq<ListedObject>, ok: string -> bool) returns (r: Option<nat>)
    ensures r.None? <==> forall j :: 0 <= j < |objs| ==> !ok(objs[j].key)
    ensures r.Some? ==> NewestAt(objs, ok, r.value)
    ensures r == NewestOf(objs, ok)
  {
    r := None;
    var i := 0;
    while i < |objs|
      invariant 0 <= i <= |objs|
      invariant r.None? <==> forall j :: 0 <= j < i ==> !ok(objs[j].key)
      invariant r.Some? ==> NewestAt(objs[..i], ok, r.value)
    {
      r := Consider(objs, ok, i, r);
      i := i + 1;
    }
    assert objs[..i] == objs;
    if r.Some? {
      NewestUnique(objs, ok, r.value, NewestOf(objs, ok).value);
    }
  }

  /** One turn of the loop: `objs[i]` replaces the choice when it passes and is strictly newer. */
  method Consider(objs: seq<ListedObject>, ok: string -> bool, i: nat, r: Option<nat>) returns (r': Option<nat>)
    requires i < |objs|
    requires r.None? <==> forall j :: 0 <= j < i ==> !ok(objs[j].key)
    requires r.Some? ==> NewestAt(objs[..i], ok, r.value)
    ensures r'.None? <==> forall j :: 0 <= j < i + 1 ==> !ok(objs[j].key)
    ensures r'.Some? ==> NewestAt(objs[..i + 1], ok, r'.value)
  {
    var next := objs[..i + 1];
    assert forall j :: 0 <= j < i ==> next[j] == objs[..i][j];
    r' := r;
    if ok(objs[i].key) && (r.None? || Before(objs[r.value].modified, objs[i].modified)) {
      r' := Some(i);
    }
  }
}
