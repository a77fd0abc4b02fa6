/**
 * Amazon S3 as the backup code sees it: a map from (bucket, key) to an
 * object body that `put_object`, `copy_object` and `delete_object` change in
 * place. A bucket outside `reachable` answers every call with an error, and
 * deletes in an object-locked bucket are refused.
 */
module ObjectStore {
  import opened Base

  datatype Loc = Loc(bucket: string, key: string)

  /** `get_object` against a given state of the store. */
  function Lookup(objects: map<Loc, string>, reachable: set<string>, loc: Loc): (r: Result<string>)
    ensures r.Ok? <==> loc.bucket in reachable && loc in objects
    ensures r.Ok? ==> r.value == objects[loc]
  {
    if loc.bucket !in reachable then Err(ClientError("NoSuchBucket"))
    else if loc !in objects then Err(ClientError("NoSuchKey"))
    else Ok(objects[loc])
  }

  class Store {
    var objects: map<Loc, string>
    /** Buckets that exist and that the caller may use (`head_bucket` succeeds). */
    const reachable: set<string>
    /** Buckets whose objects may not be deleted (Object Lock). */
    const locked: set<string>
    /** The quoted ETag S3 reports for a body. */
    const etagOf: string -> string

    constructor (objects0: map<Loc, string>, reachable0: set<string>, locked0: set<string>,
                 etagOf0: string -> string)
      ensures objects == objects0 && reachable == reachable0 && locked == locked0
      ensures etagOf == etagOf0
    {
      objects := objects0;
      reachable := reachable0;
      locked := locked0;
      etagOf := etagOf0;
    }

    /** `head_bucket`. */
    predicate HeadBucket(bucket: string)
    {
      bucket in reachable
    }

    /** `get_object`: the body, or the error code S3 answers with. */
    function Get(loc: Loc): (r: Result<string>)
      reads this
    {
      Lookup(objects, reachable, loc)
    }

    /** `head_object`: the quoted ETag of an existing object. */
    function HeadETag(loc: Loc): (r: Result<string>)
      reads this
      ensures r.Ok? <==> Get(loc).Ok?
    {
      match Get(loc)
        case Ok(body) => Ok(etagOf(body))
        case Err(e) => Err(e)
    }

    method Put(loc: Loc, body: string) returns (r: Result<()>)
      modifies this
      ensures r.Ok? <==> loc.bucket in reachable
      ensures objects == if r.Ok? then old(objects)[loc := body] else old(objects)
    {
      if loc.bucket !in reachable {
        return Err(ClientError("NoSuchBucket"));
      }
      objects := objects[loc := body];
      return Ok(());
    }

    /** `copy_object`: the destination receives the source's body. */
    method Copy(src: Loc, dst: Loc) returns (r: Result<()>)
      modifies this
      ensures r.Ok? <==> Get(src).Ok? && dst.bucket in reachable
      ensures r.Ok? ==> src in old(objects) && objects == old(objects)[dst := old(objects)[src]]
      ensures r.Err? ==> objects == old(objects)
                         && r.error == if Get(src).Err? then Get(src).error else ClientError("NoSuchBucket")
    {
      var body := Get(src);
      if body.Err? {
        return Err(body.error);
      }
      if dst.bucket !in reachable {
        return Err(ClientError("NoSuchBucket"));
      }
      objects := objects[dst := body.value];
      return Ok(());
    }

    /** `delete_object`: deleting a missing key succeeds, as in S3. */
    method Delete(loc: Loc) returns (r: Result<()>)
      modifies this
      ensures r.Ok? <==> loc.bucket in reachable && loc.bucket !in locked
      ensures objects == if r.Ok? then old(objects) - {loc} else old(objects)
      ensures r.Err? ==> r.error == ClientError(if loc.bucket !in reachable then "NoSuchBucket" else "AccessDenied")
    {
      if loc.bucket !in reachable {
        return Err(ClientError("NoSuchBucket"));
      }
      if loc.bucket in locked {
        return Err(ClientError("AccessDenied"));
      }
      objects := objects - {loc};
      return Ok(());
    }
  }
}
