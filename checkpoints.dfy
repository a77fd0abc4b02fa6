/**
 * The checkpoint helpers of the inventory filter: one object per source
 * bucket and backup type, `checkpoints/<source>/<type>.txt`, holding the ISO
 * timestamp of the last successful run. A missing object means "no
 * checkpoint"; every other failure is raised to the caller. Writes are
 * unconditional overwrites.
 */
module Checkpoints {
  import opened Base
  import opened Strings
  import opened Stamps
  import opened ObjectStore

  function CheckpointKey(source: string, backupType: string): string
  {
    "checkpoints/" + source + "/" + backupType + ".txt"
  }

  /**
   * Distinct (source bucket, backup type) pairs have distinct checkpoint
   * objects. Bucket names never contain a slash, which is what makes the
   * key unambiguous.
   */
  lemma CheckpointKeyInjective(s1: string, t1: string, s2: string, t2: string)
    requires '/' !in s1 && '/' !in s2
    requires CheckpointKey(s1, t1) == CheckpointKey(s2, t2)
    ensures s1 == s2 && t1 == t2
  {
    var k1, k2 := CheckpointKey(s1, t1), CheckpointKey(s2, t2);
    var n := |"checkpoints/"|;
    assert k1[n..n + |s1|] == s1 && k1[n + |s1|] == '/';
    assert k2[n..n + |s2|] == s2 && k2[n + |s2|] == '/';
    assert |s1| == |s2|;
    assert s1 == s2;
    assert k1[n + |s1| + 1..|k1| - 4] == t1;
    assert k2[n + |s2| + 1..|k2| - 4] == t2;
  }

  /** What `read_checkpoint` makes of the answer to `get_object`. */
  function CheckpointOf(got: Result<string>): (r: Result<Option<DateTime>>)
    ensures got == Err(ClientError("NoSuchKey")) ==> r == Ok(None)
    ensures got.Err? && got != Err(ClientError("NoSuchKey")) ==> r.Err?
    ensures got.Ok? ==> (r.Ok? <==> ParseIso(got.value).Some?)
    ensures r.Ok? && r.value.Some? ==> got.Ok? && Valid(r.value.value)
  {
    match got
      case Err(ClientError("NoSuchKey")) => Ok(None)
      case Err(e) => Err(e)
      case Ok(body) =>
        match ParseIso(body)
          case Some(t) => Ok(Some(t))
          case None => Err(ValueError("Invalid isoformat string"))
  }

  function ReadCheckpoint(store: Store, bucket: string, source: string, backupType: string)
    : Result<Option<DateTime>>
    reads store
  {
    CheckpointOf(store.Get(Loc(bucket, CheckpointKey(source, backupType))))
  }

  /** A checkpoint object holding `isoformat()` of `t` reads back as `t`. */
  lemma ReadWhatWasWritten(t: DateTime)
    requires Valid(t)
    ensures CheckpointOf(Ok(IsoFormat(t))) == Ok(Some(t))
  {
    IsoRoundTrip(t);
  }

  /** `write_checkpoint`: overwrite the object; errors reach the caller. */
  method WriteCheckpoint(store: Store, bucket: string, source: string, backupType: string,
                         t: DateTime) returns (r: Result<()>)
    requires Valid(t)
    modifies store
    ensures r.Ok? <==> bucket in store.reachable
    ensures store.objects == if r.Ok?
      then old(store.objects)[Loc(bucket, CheckpointKey(source, backupType)) := IsoFormat(t)]
      else old(store.objects)
    ensures r.Ok? ==> ReadCheckpoint(store, bucket, source, backupType) == Ok(Some(t))
  {
    r := store.Put(Loc(bucket, CheckpointKey(source, backupType)), IsoFormat(t));
    if r.Ok? {
      ReadWhatWasWritten(t);
    }
  }

  /**
   * A write is a blind overwrite: a later write of an earlier instant moves
   * the checkpoint backwards.
   */
  lemma OverwriteCanMoveBackwards(objects: map<Loc, string>, loc: Loc, newer: DateTime, older: DateTime)
    requires Valid(newer) && Valid(older) && Before(older, newer)
    ensures var after := objects[loc := IsoFormat(newer)][loc := IsoFormat(older)];
            CheckpointOf(Ok(after[loc])) == Ok(Some(older))
  {
    IsoRoundTrip(older);
  }
}
