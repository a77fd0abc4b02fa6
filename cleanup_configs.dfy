/**
 * The cleanup script that undoes what the discovery lambda put on the
 * source buckets: for each bucket (named on the command line or found by
 * tag) it removes the `AutoBackupInventory` inventory configuration and the
 * queue notification with the trigger's Id, and reports each step as an
 * (ok, message) pair. The exit code is 1 when the user declines or some
 * step reports a failure.
 */
module CleanupConfigs {
  import opened Base
  import opened Strings
  import opened FindResources

  const ArnPrefix := "arn:aws:s3:::"

  // ---------------------------------------------------------------------
  // discover_buckets_by_tag

  /** `arn.startswith("arn:aws:s3:::")`. */
  predicate IsBucketArn(arn: string)
  {
    StartsWith(arn, ArnPrefix)
  }

  /** `arn.split(":::")[-1]`. */
  function NameOf(arn: string): string
  {
    AfterLast(arn, ":::")
  }

  /** The bucket names of the S3 ARNs among the tagged resources, in order; a missing ARN reads as "". */
  function Discovered(arns: seq<string>): (r: seq<string>)
    ensures |r| <= |arns|
  {
    if arns == [] then []
    else
      var rest := Discovered(arns[..|arns| - 1]);
      var last := arns[|arns| - 1];
      if IsBucketArn(last) then rest + [NameOf(last)] else rest
  }

  /** Every discovered name comes from some S3 ARN among the resources. */
  lemma {:induction false} DiscoveredFrom(arns: seq<string>, b: string) returns (i: nat)
    requires b in Discovered(arns)
    ensures i < |arns| && IsBucketArn(arns[i]) && NameOf(arns[i]) == b
  {
    var init := arns[..|arns| - 1];
    if b in Discovered(init) {
      i := DiscoveredFrom(init, b);
      assert arns[i] == init[i];
    } else {
      i := |arns| - 1;
    }
  }

  /** The name of every S3 ARN among the resources is discovered. */
  lemma {:induction false} DiscoveredHas(arns: seq<string>, i: nat)
    requires i < |arns| && IsBucketArn(arns[i])
    ensures NameOf(arns[i]) in Discovered(arns)
  {
    if i < |arns| - 1 {
      var init := arns[..|arns| - 1];
      assert init[i] == arns[i];
      DiscoveredHas(init, i);
    }
  }

  /** A name is discovered exactly when some S3 ARN among the resources names it; other ARNs are ignored. */
  lemma DiscoveredMembers(arns: seq<string>, b: string)
    ensures b in Discovered(arns) <==> exists i :: 0 <= i < |arns| && IsBucketArn(arns[i]) && NameOf(arns[i]) == b
  {
    if b in Discovered(arns) {
      var i := DiscoveredFrom(arns, b);
    }
    if exists i :: 0 <= i < |arns| && IsBucketArn(arns[i]) && NameOf(arns[i]) == b {
      var i :| 0 <= i < |arns| && IsBucketArn(arns[i]) && NameOf(arns[i]) == b;
      DiscoveredHas(arns, i);
    }
  }

  /** The loop of `discover_buckets_by_tag` over the tag mappings. */
  method DiscoverBuckets(arns: seq<string>) returns (buckets: seq<string>)
    ensures buckets == Discovered(arns)
  {
    buckets := [];
    var i := 0;
    while i < |arns|
      invariant 0 <= i <= |arns|
      invariant buckets == Discovered(arns[..i])
    {
      assert arns[..i + 1][..i] == arns[..i];
      if IsBucketArn(arns[i]) {
        buckets := buckets + [NameOf(arns[i])];
      }
      i := i + 1;
    }
    assert arns[..i] == arns;
  }

  /** The ARN of a bucket whose name holds no ":::" gives back that name. */
  lemma ArnName(name: string)
    requires !Contains(name, ":::")
    ensures IsBucketArn(ArnPrefix + name)
    ensures NameOf(ArnPrefix + name) == name
  {
    var s := ArnPrefix + name;
    assert s[..|ArnPrefix|] == ArnPrefix;
    assert s[10..13] == ":::";
    ContainsAt(s, ":::", 10);
    forall j | 0 <= j < 10
      ensures s[j] != ':' || s[j + 1] != ':'
    {
      assert s[j] == ArnPrefix[j] && s[j + 1] == ArnPrefix[j + 1];
    }
    forall j | 0 <= j < 10
      ensures !StartsWith(s[j..], ":::")
    {
      assert |":::"| <= |s[j..]| ==> s[j..][..3][0] == s[j] && s[j..][..3][1] == s[j + 1];
    }
    var i := Find(s, ":::").value;
    assert StartsWith(s[10..], ":::") by {
      assert s[10..][..3] == s[10..13];
    }
    assert StartsWith(s[i..], ":::") by {
      assert s[i..][..3] == s[i..i + 3];
    }
    assert i == 10;
    assert s[i + 3..] == name;
  }

  // ---------------------------------------------------------------------
  // reports and their failures

  /** What a step returns: whether it changed something, and its message. */
  datatype Report = Report(ok: bool, msg: string)

  /** A step counts against the exit code when it is not ok and its message mentions "Failed". */
  predicate Failing(r: Report)
  {
    !r.ok && Contains(r.msg, "Failed")
  }

  /** A text without a capital F cannot contain "Failed". */
  lemma {:induction false} NoFailedWithoutF(s: string)
    requires 'F' !in s
    ensures !Contains(s, "Failed")
    decreases |s|
  {
    assert |s| >= 6 ==> s[..6][0] == s[0];
    if |s| > 0 {
      NoFailedWithoutF(s[1..]);
    }
  }

  const NoInventory := "No inventory to delete"
  const SkippedLead := "Inventory delete skipped: "
  const NoNotification := "No notification to remove"
  const NoMatch := "No matching notification found"
  const GetFailedLead := "Failed to get notification: "
  const PutFailedLead := "Failed to update notification: "

  // The messages of the steps that change nothing never count as failures.

  lemma NoInventoryQuiet()
    ensures !Contains(NoInventory, "Failed")
  {
    NoFailedWithoutF(NoInventory);
  }

  lemma NoNotificationQuiet()
    ensures !Contains(NoNotification, "Failed")
  {
    NoFailedWithoutF(NoNotification);
  }

  lemma NoMatchQuiet()
    ensures !Contains(NoMatch, "Failed")
  {
    NoFailedWithoutF(NoMatch);
  }

  /** A skipped inventory delete counts as a failure only through its error code. */
  lemma SkippedMessage(code: string)
    requires 'F' !in code
    ensures !Contains(SkippedLead + code, "Failed")
  {
    assert 'F' !in SkippedLead;
    NoFailedWithoutF(SkippedLead + code);
  }

  lemma FailedAtStart(a: string, b: string)
    requires StartsWith(a, "Failed")
    ensures Contains(a + b, "Failed")
  {
    assert (a + b)[..6] == a[..6];
  }

  /**
   * The report of `remove_inventory`, from what happened: the first delete
   * succeeded, else its error code, whether the listing was allowed, and
   * whether any listed configuration was deleted.
   */
  function InventoryOutcome(firstDeleted: bool, code: string, listed: bool, deletedAny: bool): Report
  {
    if firstDeleted then Report(true, "Deleted inventory 'AutoBackupInventory'")
    else if code in {"NoSuchConfiguration", "NoSuchBucket"} then Report(false, NoInventory)
    else if listed && deletedAny then Report(true, "Deleted one or more inventory configurations")
    else Report(false, SkippedLead + code)
  }

  /**
   * `remove_inventory` never writes "Failed" itself: its report counts as a
   * failure only when the error code it quotes holds a capital F.
   */
  lemma InventoryFailure(firstDeleted: bool, code: string, listed: bool, deletedAny: bool)
    ensures Failing(InventoryOutcome(firstDeleted, code, listed, deletedAny)) ==> 'F' in code
  {
    if !firstDeleted && code in {"NoSuchConfiguration", "NoSuchBucket"} {
      NoInventoryQuiet();
    } else if !firstDeleted && !(listed && deletedAny) && 'F' !in code {
      SkippedMessage(code);
    }
  }

  /**
   * The report of `remove_notification`, from what happened: whether the
   * bucket exists, the error code of a refused read, whether filtering
   * changed the configuration, and the error code of a refused write.
   */
  function NotificationOutcome(exists_: bool, getError: Option<string>, changed: bool, putError: Option<string>)
    : Report
  {
    if !exists_ then Report(false, NoNotification)
    else if getError.Some? then
      if getError.value in {"NoSuchBucket", "NoSuchConfiguration"} then Report(false, NoNotification)
      else Report(false, GetFailedLead + getError.value)
    else if !changed then Report(false, NoMatch)
    else if putError.Some? then Report(false, PutFailedLead + putError.value)
    else Report(true, "Removed notification 'BckIncrementalTrigger-SQS'")
  }

  /** A notification step fails exactly when the read is refused for another reason than a missing bucket or configuration, or the needed write is refused. */
  lemma NotificationFailure(exists_: bool, getError: Option<string>, changed: bool, putError: Option<string>)
    ensures Failing(NotificationOutcome(exists_, getError, changed, putError)) <==>
              exists_ && ((getError.Some? && getError.value !in {"NoSuchBucket", "NoSuchConfiguration"})
                          || (getError.None? && changed && putError.Some?))
  {
    var r := NotificationOutcome(exists_, getError, changed, putError);
    if !exists_ || (getError.Some? && getError.value in {"NoSuchBucket", "NoSuchConfiguration"}) {
      assert r.msg == NoNotification;
      NoNotificationQuiet();
    } else if getError.Some? {
      assert r == Report(false, GetFailedLead + getError.value);
      FailedAtStart(GetFailedLead, getError.value);
    } else if !changed {
      assert r.msg == NoMatch;
      NoMatchQuiet();
    } else if putError.Some? {
      assert r == Report(false, PutFailedLead + putError.value);
      FailedAtStart(PutFailedLead, putError.value);
    } else {
      assert r.ok;
    }
  }

  // ---------------------------------------------------------------------
  // the list edits

  /** `[q for q in qcfgs if q.get("Id") != NOTIFICATION_ID]`. */
  function WithoutTrigger(queues: seq<QueueConfig>): (r: seq<QueueConfig>)
    ensures |r| <= |queues|
    ensures forall q :: q in r <==> q in queues && q.id != Some(NotificationId)
    ensures !HasTrigger(r)
  {
    if queues == [] then []
    else
      var init := queues[..|queues| - 1];
      var last := queues[|queues| - 1];
      assert queues == init + [last];
      var rest := WithoutTrigger(init);
      if last.id != Some(NotificationId) then rest + [last] else rest
  }

  /** The filter keeps the order: it distributes over concatenation. */
  lemma {:induction false} WithoutTriggerAppend(a: seq<QueueConfig>, b: seq<QueueConfig>)
    ensures WithoutTrigger(a + b) == WithoutTrigger(a) + WithoutTrigger(b)
    decreases |b|
  {
    if b == [] {
      assert a + b == a;
    } else {
      var b' := b[..|b| - 1];
      assert (a + b)[..|a + b| - 1] == a + b';
      WithoutTriggerAppend(a, b');
    }
  }

  /** The filter leaves a list alone exactly when the list holds no trigger. */
  lemma {:induction false} WithoutTriggerUnchanged(queues: seq<QueueConfig>)
    ensures WithoutTrigger(queues) == queues <==> !HasTrigger(queues)
  {
    if queues != [] && !HasTrigger(queues) {
      var n := |queues| - 1;
      var init, last := queues[..n], queues[n];
      assert queues == init + [last];
      assert !HasTrigger(init) by {
        assert forall i :: 0 <= i < |init| ==> init[i] == queues[i];
      }
      assert last.id != Some(NotificationId);
      WithoutTriggerUnchanged(init);
      assert WithoutTrigger(queues) == WithoutTrigger(init) + [last];
    }
  }

  /** The configuration `remove_notification` puts: the queue list filtered (an absent one becomes empty). */
  function Removed(n: Notification): (r: Notification)
    ensures !HasTrigger(QueuesOf(r)) && r.queues.Some? && r.others == n.others
  {
    Notification(Some(WithoutTrigger(QueuesOf(n))), n.others)
  }

  /** `cfg == original`: only a present queue list without the trigger leaves the configuration as it was. */
  lemma RemovedChanges(n: Notification)
    ensures Removed(n) == n <==> n.queues.Some? && !HasTrigger(n.queues.value)
  {
    WithoutTriggerUnchanged(QueuesOf(n));
  }

  /** Removing twice is removing once. */
  lemma RemovedIdempotent(n: Notification)
    ensures Removed(Removed(n)) == Removed(n)
  {
    RemovedChanges(Removed(n));
  }

  /**
   * The cleanup undoes the discovery lambda: on a bucket whose queue list
   * was present and had no trigger, adding the trigger and then removing it
   * gives back the configuration it had.
   */
  lemma RemovedUndoesTrigger(n: Notification, queueArn: string)
    requires n.queues.Some? && !HasTrigger(n.queues.value)
    ensures Removed(WithTrigger(Some(n), queueArn)) == n
  {
    var qs := n.queues.value;
    WithoutTriggerAppend(qs, [Trigger(queueArn)]);
    assert [Trigger(queueArn)] == [] + [Trigger(queueArn)];
    WithoutTriggerUnchanged(qs);
  }

  /** `ids` without the configurations that carry `id`. */
  function WithoutId(ids: seq<Option<string>>, id: string): (r: seq<Option<string>>)
    ensures forall e :: e in r <==> e in ids && e != Some(id)
    ensures Some(id) in ids ==> |r| < |ids|
    ensures |r| <= |ids|
  {
    if ids == [] then []
    else
      var init := ids[..|ids| - 1];
      var last := ids[|ids| - 1];
      assert ids == init + [last];
      var rest := WithoutId(init, id);
      if last != Some(id) then rest + [last] else rest
  }

  /** `ids` without the configurations whose Id is in `gone`. */
  function Drop(ids: seq<Option<string>>, gone: set<string>): (r: seq<Option<string>>)
    ensures forall e :: e in r <==> e in ids && !(e.Some? && e.value in gone)
    ensures |r| <= |ids|
  {
    if ids == [] then []
    else
      var init := ids[..|ids| - 1];
      var last := ids[|ids| - 1];
      assert ids == init + [last];
      var rest := Drop(init, gone);
      if last.Some? && last.value in gone then rest else rest + [last]
  }

  /** Dropping no Id leaves the list as it was. */
  lemma {:induction false} DropNothing(ids: seq<Option<string>>)
    ensures Drop(ids, {}) == ids
  {
    if ids != [] {
      DropNothing(ids[..|ids| - 1]);
      assert ids == ids[..|ids| - 1] + [ids[|ids| - 1]];
    }
  }

  /** Deleting one more Id from a list that already lost some is dropping both. */
  lemma {:induction false} DropMore(ids: seq<Option<string>>, gone: set<string>, id: string)
    ensures WithoutId(Drop(ids, gone), id) == Drop(ids, gone + {id})
  {
    if ids != [] {
      var init := ids[..|ids| - 1];
      DropMore(init, gone, id);
      var rest := Drop(init, gone);
      var last := ids[|ids| - 1];
      if !(last.Some? && last.value in gone) {
        var xs := rest + [last];
        assert xs[..|xs| - 1] == rest;
      }
    }
  }

  /** A listed configuration whose Id is dropped makes the list shorter. */
  lemma {:induction false} DropShorter(ids: seq<Option<string>>, gone: set<string>, j: nat)
    requires j < |ids| && ids[j].Some? && ids[j].value in gone
    ensures |Drop(ids, gone)| < |ids|
  {
    var init := ids[..|ids| - 1];
    if j < |ids| - 1 {
      DropShorter(init, gone, j);
    }
  }

  // ---------------------------------------------------------------------
  // the buckets' configurations

  /** A bucket's inventory configurations in a state of the account (none when it has no entry). */
  function ListedIn(inv: map<string, seq<Option<string>>>, bucket: string): seq<Option<string>>
  {
    if bucket in inv then inv[bucket] else []
  }

  /** A bucket's notification configuration in a state of the account; one without any reads as empty. */
  function CurrentIn(notif: map<string, Notification>, bucket: string): Notification
  {
    if bucket in notif then notif[bucket] else Notification(None, [])
  }

  /** The source buckets' inventory and notification configurations, which the script changes in place. */
  class Buckets {
    /** Each bucket's inventory configurations, by Id (S3 may omit one). */
    var inventories: map<string, seq<Option<string>>>
    var notifications: map<string, Notification>
    /** The buckets that exist; any other answers NoSuchBucket. */
    const existing: set<string>
    /** Inventory deletes S3 refuses, with the error code it answers. */
    const refusals: map<(string, string), string>
    /** Buckets whose inventory listing is refused. */
    const listRefused: set<string>
    /** Buckets whose notification read is refused, with the error code. */
    const getRefused: map<string, string>
    /** Buckets whose notification write is refused, with the error code. */
    const putRefused: map<string, string>

    constructor (inventories0: map<string, seq<Option<string>>>, notifications0: map<string, Notification>,
                 existing0: set<string>, refusals0: map<(string, string), string>, listRefused0: set<string>,
                 getRefused0: map<string, string>, putRefused0: map<string, string>)
      ensures inventories == inventories0 && notifications == notifications0 && existing == existing0
      ensures refusals == refusals0 && listRefused == listRefused0
      ensures getRefused == getRefused0 && putRefused == putRefused0
    {
      inventories := inventories0;
      notifications := notifications0;
      existing := existing0;
      refusals := refusals0;
      listRefused := listRefused0;
      getRefused := getRefused0;
      putRefused := putRefused0;
    }

    /** The inventory configurations listed for a bucket (none when it has no entry). */
    function Inventories(bucket: string): seq<Option<string>>
      reads this
    {
      ListedIn(inventories, bucket)
    }

    /** `get_bucket_notification_configuration` on an existing bucket; one without any answers an empty configuration. */
    function Current(bucket: string): Notification
      reads this
    {
      CurrentIn(notifications, bucket)
    }

    /** An inventory delete S3 carries out when the configuration is there. */
    predicate Allowed(bucket: string, id: string)
    {
      bucket in existing && (bucket, id) !in refusals
    }

    /** An inventory delete S3 carries out. */
    predicate Deletable(bucket: string, id: string)
      reads this
    {
      DeletableIn(bucket, id, Inventories(bucket))
    }

    /** An inventory delete S3 carries out while the bucket lists `current`. */
    predicate DeletableIn(bucket: string, id: string, current: seq<Option<string>>)
    {
      Allowed(bucket, id) && Some(id) in current
    }

    /** The error code of an inventory delete S3 does not carry out. */
    function DeleteError(bucket: string, id: string): string
    {
      if bucket !in existing then "NoSuchBucket"
      else if (bucket, id) in refusals then refusals[(bucket, id)]
      else "NoSuchConfiguration"
    }

    /** Some listed configuration has an Id whose delete S3 carries out. */
    predicate AnyAllowed(bucket: string, listed: seq<Option<string>>)
    {
      exists j :: 0 <= j < |listed| && listed[j].Some? && listed[j].value != "" && Allowed(bucket, listed[j].value)
    }

    /** The Ids among `listed` whose delete S3 carries out. */
    function AllowedIds(bucket: string, listed: seq<Option<string>>): (r: set<string>)
      ensures forall id :: id in r <==> Some(id) in listed && id != "" && Allowed(bucket, id)
    {
      if listed == [] then {}
      else
        var last := listed[|listed| - 1];
        assert listed == listed[..|listed| - 1] + [last];
        AllowedIds(bucket, listed[..|listed| - 1])
        + if last.Some? && last.value != "" && Allowed(bucket, last.value) then {last.value} else {}
    }

    /** What the fallback leaves of a bucket's list: every configuration whose Id it could delete is gone. */
    function Surviving(bucket: string, listed: seq<Option<string>>): (r: seq<Option<string>>)
      ensures forall e :: e in r <==> e in listed && !(e.Some? && e.value != "" && Allowed(bucket, e.value))
    {
      Drop(listed, AllowedIds(bucket, listed))
    }

    /** The fallback shortens the list exactly when it could delete some listed Id. */
    lemma FallbackShrinks(bucket: string, listed: seq<Option<string>>)
      ensures AnyAllowed(bucket, listed) <==> |Surviving(bucket, listed)| < |listed|
      ensures !AnyAllowed(bucket, listed) ==> Surviving(bucket, listed) == listed
    {
      var gone := AllowedIds(bucket, listed);
      if AnyAllowed(bucket, listed) {
        var j :| 0 <= j < |listed| && listed[j].Some? && listed[j].value != "" && Allowed(bucket, listed[j].value);
        DropShorter(listed, gone, j);
      } else {
        assert gone == {};
        DropNothing(listed);
      }
    }

    /** `delete_bucket_inventory_configuration`. */
    method DeleteInventory(bucket: string, id: string) returns (r: Result<()>)
      modifies this
      ensures r.Ok? <==> old(Deletable(bucket, id))
      ensures r.Err? ==> r.error == ClientError(DeleteError(bucket, id)) && inventories == old(inventories)
      ensures r.Ok? ==> inventories == old(inventories)[bucket := WithoutId(old(inventories)[bucket], id)]
      ensures notifications == old(notifications)
    {
      if !Deletable(bucket, id) {
        return Err(ClientError(DeleteError(bucket, id)));
      }
      inventories := inventories[bucket := WithoutId(inventories[bucket], id)];
      r := Ok(());
    }

    /**
     * The fallback of `remove_inventory`: delete every listed Id in turn,
     * noting whether any delete went through. The bucket's list loses
     * exactly the configurations whose Id could be deleted; nothing else
     * changes.
     */
    method DeleteListed(bucket: string) returns (deletedAny: bool)
      modifies this
      ensures deletedAny <==> old(AnyAllowed(bucket, Inventories(bucket)))
      ensures notifications == old(notifications)
      ensures inventories == if bucket in old(inventories)
                             then old(inventories)[bucket := Surviving(bucket, old(inventories)[bucket])]
                             else old(inventories)
    {
      var listed := Inventories(bucket);
      deletedAny := false;
      DropNothing(listed);
      var i := 0;
      while i < |listed|
        invariant 0 <= i <= |listed|
        invariant notifications == old(notifications)
        invariant inventories == if bucket in old(inventories)
                                 then old(inventories)[bucket := Drop(listed, AllowedIds(bucket, listed[..i]))]
                                 else old(inventories)
        invariant deletedAny <==> AnyAllowed(bucket, listed[..i])
      {
        deletedAny := DeleteNext(bucket, listed, i, old(inventories), deletedAny);
        i := i + 1;
      }
      assert listed[..i] == listed;
    }

    /** One turn of the fallback loop: the delete of `listed[i]`, when it names an Id. */
    method DeleteNext(bucket: string, listed: seq<Option<string>>, i: nat,
                      ghost inventories0: map<string, seq<Option<string>>>, deletedAny: bool)
      returns (deletedAny': bool)
      modifies this
      requires i < |listed|
      requires listed == (if bucket in inventories0 then inventories0[bucket] else [])
      requires inventories == if bucket in inventories0
                              then inventories0[bucket := Drop(listed, AllowedIds(bucket, listed[..i]))]
                              else inventories0
      requires deletedAny <==> AnyAllowed(bucket, listed[..i])
      ensures notifications == old(notifications)
      ensures inventories == if bucket in inventories0
                             then inventories0[bucket := Drop(listed, AllowedIds(bucket, listed[..i + 1]))]
                             else inventories0
      ensures deletedAny' <==> AnyAllowed(bucket, listed[..i + 1])
    {
      DeleteStep(bucket, listed, i);
      DeletedAnyStep(bucket, listed, i);
      deletedAny' := deletedAny;
      if listed[i].Some? && listed[i].value != "" {
        var d := DeleteInventory(bucket, listed[i].value);
        if d.Ok? {
          deletedAny' := true;
        }
      }
    }

    /**
     * The list before and after the delete of `listed[i]`: the delete goes
     * through exactly when its Id is allowed and still listed, and either
     * way the list is then the original without the Ids deleted so far.
     */
    lemma DeleteStep(bucket: string, listed: seq<Option<string>>, i: nat)
      requires i < |listed|
      ensures var cur := Drop(listed, AllowedIds(bucket, listed[..i]));
              var next := Drop(listed, AllowedIds(bucket, listed[..i + 1]));
              var e := listed[i];
              (e.Some? && e.value != "" && DeletableIn(bucket, e.value, cur) ==> WithoutId(cur, e.value) == next)
              && (!(e.Some? && e.value != "" && DeletableIn(bucket, e.value, cur)) ==> cur == next)
    {
      FallbackStep(bucket, listed, i);
      var gone := AllowedIds(bucket, listed[..i]);
      var e := listed[i];
      if e.Some? && e.value != "" && Allowed(bucket, e.value) {
        assert Some(e.value) in Drop(listed, gone) <==> e.value !in gone;
        DropMore(listed, gone, e.value);
        if e.value in gone {
          assert gone + {e.value} == gone;
        }
      } else {
        assert AllowedIds(bucket, listed[..i + 1]) == gone;
      }
    }

    /**
     * Some delete of the first `i + 1` listed Ids went through exactly when
     * one of the first `i` did or the delete of `listed[i]` goes through now.
     */
    lemma DeletedAnyStep(bucket: string, listed: seq<Option<string>>, i: nat)
      requires i < |listed|
      ensures var cur := Drop(listed, AllowedIds(bucket, listed[..i]));
              var e := listed[i];
              AnyAllowed(bucket, listed[..i + 1])
              <==> AnyAllowed(bucket, listed[..i]) || (e.Some? && e.value != "" && DeletableIn(bucket, e.value, cur))
    {
      FallbackStep(bucket, listed, i);
      AnyAllowedIds(bucket, listed[..i]);
      var gone := AllowedIds(bucket, listed[..i]);
      var e := listed[i];
      if e.Some? && e.value != "" && Allowed(bucket, e.value) && Some(e.value) !in Drop(listed, gone) {
        assert e.value in gone;
      }
    }

    /** Some listed Id can be deleted exactly when the set of such Ids is not empty. */
    lemma AnyAllowedIds(bucket: string, listed: seq<Option<string>>)
      ensures AnyAllowed(bucket, listed) <==> AllowedIds(bucket, listed) != {}
    {
      if AllowedIds(bucket, listed) != {} {
        var id :| id in AllowedIds(bucket, listed);
        var j :| 0 <= j < |listed| && listed[j] == Some(id);
      }
    }

    /** One more listed configuration adds its Id to those deleted when S3 carries out its delete. */
    lemma FallbackStep(bucket: string, listed: seq<Option<string>>, i: nat)
      requires i < |listed|
      ensures var e := listed[i];
              var deletes := e.Some? && e.value != "" && Allowed(bucket, e.value);
              AllowedIds(bucket, listed[..i + 1])
              == AllowedIds(bucket, listed[..i]) + (if deletes then {e.value} else {})
              && (AnyAllowed(bucket, listed[..i + 1]) <==> AnyAllowed(bucket, listed[..i]) || deletes)
    {
      var xs := listed[..i + 1];
      assert xs[..|xs| - 1] == listed[..i];
      AnyStep(bucket, listed, i);
    }

    lemma AnyStep(bucket: string, listed: seq<Option<string>>, i: nat)
      requires i < |listed|
      ensures var e := listed[i];
              AnyAllowed(bucket, listed[..i + 1])
              <==> AnyAllowed(bucket, listed[..i]) || (e.Some? && e.value != "" && Allowed(bucket, e.value))
    {
      var xs, ys := listed[..i + 1], listed[..i];
      if AnyAllowed(bucket, xs) {
        var j :| 0 <= j < |xs| && xs[j].Some? && xs[j].value != "" && Allowed(bucket, xs[j].value);
        if j < i {
          assert ys[j] == xs[j];
        }
      }
      if AnyAllowed(bucket, ys) {
        var j :| 0 <= j < |ys| && ys[j].Some? && ys[j].value != "" && Allowed(bucket, ys[j].value);
        assert xs[j] == ys[j];
      }
    }

    /** The report of `remove_inventory` for `bucket` when the inventories are `inv`. */
    function InventoryReport(inv: map<string, seq<Option<string>>>, bucket: string): Report
    {
      var listed := ListedIn(inv, bucket);
      InventoryOutcome(DeletableIn(bucket, InventoryId, listed), DeleteError(bucket, InventoryId),
                       bucket !in listRefused, AnyAllowed(bucket, listed))
    }

    /** The inventories after `remove_inventory` for `bucket`. */
    function InventoriesAfter(inv: map<string, seq<Option<string>>>, bucket: string): map<string, seq<Option<string>>>
    {
      var listed := ListedIn(inv, bucket);
      if DeletableIn(bucket, InventoryId, listed) then inv[bucket := WithoutId(listed, InventoryId)]
      else if InventoryReport(inv, bucket).ok then inv[bucket := Surviving(bucket, listed)]
      else inv
    }

    /** The report of `remove_notification` for `bucket` when the notifications are `notif`. */
    function NotificationReport(notif: map<string, Notification>, bucket: string): Report
    {
      var current := CurrentIn(notif, bucket);
      NotificationOutcome(bucket in existing, if bucket in getRefused then Some(getRefused[bucket]) else None,
                          Removed(current) != current,
                          if bucket in putRefused then Some(putRefused[bucket]) else None)
    }

    /** The notifications after `remove_notification` for `bucket`: the trigger filtered out when the write went through. */
    function NotificationsAfter(notif: map<string, Notification>, bucket: string): map<string, Notification>
    {
      if NotificationReport(notif, bucket).ok then notif[bucket := Removed(CurrentIn(notif, bucket))] else notif
    }

    /** The inventories after both steps for every bucket of `buckets`, in order. */
    function InventoriesAfterAll(inv: map<string, seq<Option<string>>>, buckets: seq<string>)
      : map<string, seq<Option<string>>>
    {
      if buckets == [] then inv
      else InventoriesAfter(InventoriesAfterAll(inv, buckets[..|buckets| - 1]), buckets[|buckets| - 1])
    }

    /** The notifications after both steps for every bucket of `buckets`, in order. */
    function NotificationsAfterAll(notif: map<string, Notification>, buckets: seq<string>): map<string, Notification>
    {
      if buckets == [] then notif
      else NotificationsAfter(NotificationsAfterAll(notif, buckets[..|buckets| - 1]), buckets[|buckets| - 1])
    }

    /** The report pairs of `main`'s loop: each bucket's two reports against the state the buckets before it left. */
    function CleanReports(inv: map<string, seq<Option<string>>>, notif: map<string, Notification>, buckets: seq<string>)
      : (r: seq<(Report, Report)>)
      ensures |r| == |buckets|
    {
      if buckets == [] then []
      else
        var init, b := buckets[..|buckets| - 1], buckets[|buckets| - 1];
        CleanReports(inv, notif, init)
        + [(InventoryReport(InventoriesAfterAll(inv, init), b), NotificationReport(NotificationsAfterAll(notif, init), b))]
    }

    /** The `j`-th report pair is the two steps of the `j`-th bucket against the state the buckets before it left. */
    lemma {:induction false} CleanReportsAt(inv: map<string, seq<Option<string>>>, notif: map<string, Notification>,
                                            buckets: seq<string>, j: nat)
      requires j < |buckets|
      ensures |CleanReports(inv, notif, buckets)| == |buckets|
      ensures CleanReports(inv, notif, buckets)[j]
              == (InventoryReport(InventoriesAfterAll(inv, buckets[..j]), buckets[j]),
                  NotificationReport(NotificationsAfterAll(notif, buckets[..j]), buckets[j]))
    {
      var init := buckets[..|buckets| - 1];
      if j < |buckets| - 1 {
        CleanReportsAt(inv, notif, init, j);
        assert init[..j] == buckets[..j];
      } else {
        assert init == buckets[..j];
        if init != [] {
          CleanReportsAt(inv, notif, init, 0);
        }
      }
    }

    /** Both steps for one bucket leave every other bucket's configurations as they were. */
    lemma StepKeeps(inv: map<string, seq<Option<string>>>, notif: map<string, Notification>, b: string, c: string)
      requires c != b
      ensures ListedIn(InventoriesAfter(inv, b), c) == ListedIn(inv, c)
      ensures CurrentIn(NotificationsAfter(notif, b), c) == CurrentIn(notif, c)
    {
    }

    /** The steps for the buckets from the `j`-th on leave every other bucket's configurations as they were. */
    lemma {:induction false} LaterStepsKeep(inv: map<string, seq<Option<string>>>, notif: map<string, Notification>,
                                            buckets: seq<string>, j: nat, c: string)
      requires j <= |buckets| && c !in buckets[j..]
      ensures ListedIn(InventoriesAfterAll(inv, buckets), c) == ListedIn(InventoriesAfterAll(inv, buckets[..j]), c)
      ensures CurrentIn(NotificationsAfterAll(notif, buckets), c) == CurrentIn(NotificationsAfterAll(notif, buckets[..j]), c)
    {
      if j < |buckets| {
        var init, last := buckets[..|buckets| - 1], buckets[|buckets| - 1];
        assert last == buckets[j..][|buckets| - 1 - j];
        assert init[j..] == buckets[j..|buckets| - 1];
        assert forall x :: x in init[j..] ==> x in buckets[j..];
        LaterStepsKeep(inv, notif, init, j, c);
        assert init[..j] == buckets[..j];
        StepKeeps(InventoriesAfterAll(inv, init), NotificationsAfterAll(notif, init), last, c);
      } else {
        assert buckets[..j] == buckets;
      }
    }

    /**
     * When no bucket is named twice, each bucket's two steps see the
     * bucket's original configurations, and its final configurations are
     * what cleaning it alone gives: the trigger filtered out of its
     * notification configuration whenever that step reports ok.
     */
    lemma CleanedAlone(inv: map<string, seq<Option<string>>>, notif: map<string, Notification>,
                       buckets: seq<string>, j: nat)
      requires j < |buckets|
      requires forall a, b :: 0 <= a < b < |buckets| ==> buckets[a] != buckets[b]
      ensures CleanReports(inv, notif, buckets)[j]
              == (InventoryReport(inv, buckets[j]), NotificationReport(notif, buckets[j]))
      ensures ListedIn(InventoriesAfterAll(inv, buckets), buckets[j])
              == ListedIn(InventoriesAfter(inv, buckets[j]), buckets[j])
      ensures CurrentIn(NotificationsAfterAll(notif, buckets), buckets[j])
              == CurrentIn(NotificationsAfter(notif, buckets[j]), buckets[j])
      ensures NotificationReport(notif, buckets[j]).ok
              ==> CurrentIn(NotificationsAfterAll(notif, buckets), buckets[j]) == Removed(CurrentIn(notif, buckets[j]))
    {
      var b := buckets[j];
      var before := buckets[..j];
      CleanReportsAt(inv, notif, buckets, j);
      NamedOnce(buckets, j);
      assert before[..0] == [];
      LaterStepsKeep(inv, notif, before, 0, b);
      SameAtSameSteps(InventoriesAfterAll(inv, before), inv, NotificationsAfterAll(notif, before), notif, b);
      AfterAllSnoc(inv, notif, buckets, j);
      LaterStepsKeep(inv, notif, buckets, j + 1, b);
    }

    /** A bucket named once is neither among the buckets before it nor among those after it. */
    lemma NamedOnce(buckets: seq<string>, j: nat)
      requires j < |buckets|
      requires forall a, b :: 0 <= a < b < |buckets| ==> buckets[a] != buckets[b]
      ensures buckets[j] !in buckets[..j][0..] && buckets[j] !in buckets[j + 1..]
    {
      assert buckets[..j][0..] == buckets[..j];
    }

    /** The state after the first `j + 1` buckets is one more step on the state after the first `j`. */
    lemma AfterAllSnoc(inv: map<string, seq<Option<string>>>, notif: map<string, Notification>,
                       buckets: seq<string>, j: nat)
      requires j < |buckets|
      ensures InventoriesAfterAll(inv, buckets[..j + 1]) == InventoriesAfter(InventoriesAfterAll(inv, buckets[..j]), buckets[j])
      ensures NotificationsAfterAll(notif, buckets[..j + 1])
              == NotificationsAfter(NotificationsAfterAll(notif, buckets[..j]), buckets[j])
    {
      assert buckets[..j + 1][..j] == buckets[..j];
    }

    /** The two steps for a bucket depend only on that bucket's configurations. */
    lemma SameAtSameSteps(inv1: map<string, seq<Option<string>>>, inv2: map<string, seq<Option<string>>>,
                          notif1: map<string, Notification>, notif2: map<string, Notification>, b: string)
      requires ListedIn(inv1, b) == ListedIn(inv2, b) && CurrentIn(notif1, b) == CurrentIn(notif2, b)
      ensures InventoryReport(inv1, b) == InventoryReport(inv2, b)
      ensures NotificationReport(notif1, b) == NotificationReport(notif2, b)
      ensures ListedIn(InventoriesAfter(inv1, b), b) == ListedIn(InventoriesAfter(inv2, b), b)
      ensures CurrentIn(NotificationsAfter(notif1, b), b) == CurrentIn(NotificationsAfter(notif2, b), b)
    {
    }

    /**
     * `remove_inventory`: delete the known Id; when that is refused for
     * another reason than a missing configuration or bucket, try every
     * listed Id. The report follows from the first delete, the listing and
     * whether some listed Id could be deleted; only the bucket's own entry
     * changes, and only when the report is ok.
     */
    method RemoveInventory(bucket: string) returns (r: Report)
      modifies this
      ensures r == InventoryOutcome(old(Deletable(bucket, InventoryId)), DeleteError(bucket, InventoryId),
                                    bucket !in listRefused, old(AnyAllowed(bucket, Inventories(bucket))))
      ensures notifications == old(notifications)
      ensures !r.ok ==> inventories == old(inventories)
      ensures r.ok ==> bucket in old(inventories) && bucket in inventories && |Inventories(bucket)| < old(|Inventories(bucket)|)
      ensures old(Deletable(bucket, InventoryId))
              ==> inventories == old(inventories)[bucket := WithoutId(old(inventories)[bucket], InventoryId)]
      ensures r.ok && !old(Deletable(bucket, InventoryId))
              ==> inventories == old(inventories)[bucket := Surviving(bucket, old(inventories)[bucket])]
      ensures r == InventoryReport(old(inventories), bucket) && inventories == InventoriesAfter(old(inventories), bucket)
    {
      FallbackShrinks(bucket, Inventories(bucket));
      var first := DeleteInventory(bucket, InventoryId);
      if first.Ok? {
        return Report(true, "Deleted inventory 'AutoBackupInventory'");
      }
      var code := first.error.code;
      if code in {"NoSuchConfiguration", "NoSuchBucket"} {
        return Report(false, NoInventory);
      }
      if bucket in listRefused {
        return Report(false, SkippedLead + code);
      }
      ghost var before := inventories;
      var deletedAny := DeleteListed(bucket);
      if !deletedAny && bucket in before {
        assert before[bucket := before[bucket]] == before;
      }
      if deletedAny {
        return Report(true, "Deleted one or more inventory configurations");
      }
      r := Report(false, SkippedLead + code);
    }

    /**
     * `remove_notification`: read the configuration, filter out the
     * trigger, and write it back when that changed it. Only the bucket's
     * own notification changes, to the filtered one, and only when the
     * report is ok.
     */
    method RemoveNotification(bucket: string) returns (r: Report)
      modifies this
      ensures r == NotificationOutcome(bucket in existing, if bucket in getRefused then Some(getRefused[bucket]) else None,
                                       Removed(old(Current(bucket))) != old(Current(bucket)),
                                       if bucket in putRefused then Some(putRefused[bucket]) else None)
      ensures inventories == old(inventories)
      ensures notifications == if r.ok then old(notifications)[bucket := Removed(old(Current(bucket)))]
                               else old(notifications)
      ensures r.ok ==> !HasTrigger(QueuesOf(notifications[bucket]))
      ensures r == NotificationReport(old(notifications), bucket)
              && notifications == NotificationsAfter(old(notifications), bucket)
    {
      if bucket !in existing {
        return Report(false, NoNotification);
      }
      if bucket in getRefused {
        var code := getRefused[bucket];
        if code in {"NoSuchBucket", "NoSuchConfiguration"} {
          return Report(false, NoNotification);
        }
        return Report(false, GetFailedLead + code);
      }
      var original := Current(bucket);
      var cfg := Removed(original);
      if cfg == original {
        return Report(false, NoMatch);
      }
      if bucket in putRefused {
        return Report(false, PutFailedLead + putRefused[bucket]);
      }
      notifications := notifications[bucket := cfg];
      r := Report(true, "Removed notification 'BckIncrementalTrigger-SQS'");
    }
  }

  // ---------------------------------------------------------------------
  // main

  /** `--bucket` (repeatable; empty when not given), `--yes` and `--dry-run`. */
  datatype Args = Args(buckets: seq<string>, yes: bool, dryRun: bool)

  /** The buckets `main` works on: the named ones, else the discovered ones; a failed search is its error. */
  function Targets(args: Args, tagged: Result<seq<string>>): Result<seq<string>>
  {
    if args.buckets != [] then Ok(args.buckets)
    else match tagged
      case Ok(arns) => Ok(Discovered(arns))
      case Err(e) => Err(e)
  }

  /** The tag search failed because the credentials are invalid or expired. */
  predicate BadCredentials(e: Error)
  {
    e.ClientError? && e.code in {"UnrecognizedClientException", "InvalidClientTokenId"}
  }

  /** Without `--yes`, an answer other than y or yes (after strip and lower) aborts. */
  predicate Declined(args: Args, answer: string)
  {
    !args.yes && Lower(Strip(answer)) !in {"y", "yes"}
  }

  /**
   * The loop of `main` over the buckets: both steps for each, noting
   * whether any failed. Each bucket's reports are those of the state the
   * buckets before it left.
   */
  method CleanAll(state: Buckets, buckets: seq<string>) returns (anyErrors: bool, reports: seq<(Report, Report)>)
    modifies state
    ensures reports == state.CleanReports(old(state.inventories), old(state.notifications), buckets)
    ensures state.inventories == state.InventoriesAfterAll(old(state.inventories), buckets)
    ensures state.notifications == state.NotificationsAfterAll(old(state.notifications), buckets)
    ensures |reports| == |buckets|
    ensures anyErrors <==> exists j :: 0 <= j < |reports| && (Failing(reports[j].0) || Failing(reports[j].1))
    ensures reports == [] ==> state.inventories == old(state.inventories)
                              && state.notifications == old(state.notifications)
  {
    reports := [];
    var i := 0;
    while i < |buckets|
      invariant 0 <= i <= |buckets|
      invariant reports == state.CleanReports(old(state.inventories), old(state.notifications), buckets[..i])
      invariant state.inventories == state.InventoriesAfterAll(old(state.inventories), buckets[..i])
      invariant state.notifications == state.NotificationsAfterAll(old(state.notifications), buckets[..i])
      invariant |reports| == i
    {
      assert buckets[..i + 1][..i] == buckets[..i];
      var inv := state.RemoveInventory(buckets[i]);
      var notif := state.RemoveNotification(buckets[i]);
      reports := reports + [(inv, notif)];
      i := i + 1;
    }
    assert buckets[..i] == buckets;
    anyErrors := exists j :: 0 <= j < |reports| && (Failing(reports[j].0) || Failing(reports[j].1));
  }

  /**
   * `main` after argument parsing. A session that cannot be built and bad
   * credentials give 2, other search errors are raised, no bucket gives 0,
   * declining gives 1 and changes nothing, and a dry run changes nothing.
   * Otherwise each bucket gets its two steps, and the answer is 1 exactly
   * when some step failed.
   */
  method Run(state: Buckets, args: Args, sessionOk: bool, tagged: Result<seq<string>>, answer: string)
    returns (code: Result<int>, reports: seq<(Report, Report)>)
    modifies state
    ensures !sessionOk ==> code == Ok(2) && reports == []
    ensures sessionOk && Targets(args, tagged).Err? ==>
              (code == Ok(2) <==> BadCredentials(Targets(args, tagged).error))
              && (code.Err? <==> !BadCredentials(Targets(args, tagged).error))
    ensures sessionOk && Targets(args, tagged) == Ok([]) ==> code == Ok(0)
    ensures sessionOk && Targets(args, tagged).Ok? && Targets(args, tagged).value != [] && Declined(args, answer)
            ==> code == Ok(1)
    ensures sessionOk && (Targets(args, tagged).Err? || Targets(args, tagged) == Ok([])
                          || (Targets(args, tagged).value != [] && Declined(args, answer)))
            ==> reports == [] && state.inventories == old(state.inventories)
                && state.notifications == old(state.notifications)
    ensures code.Err? || reports == [] || args.dryRun ==>
              state.inventories == old(state.inventories) && state.notifications == old(state.notifications)
    ensures sessionOk && Targets(args, tagged).Ok? && Targets(args, tagged).value != [] && !Declined(args, answer)
            ==> code.Ok? && code.value in {0, 1}
                && |reports| == (if args.dryRun then 0 else |Targets(args, tagged).value|)
                && (code.value == 1 <==> exists i :: 0 <= i < |reports| && (Failing(reports[i].0) || Failing(reports[i].1)))
    ensures sessionOk && Targets(args, tagged).Ok? && Targets(args, tagged).value != [] && !Declined(args, answer)
            && !args.dryRun
            ==> var buckets := Targets(args, tagged).value;
                reports == state.CleanReports(old(state.inventories), old(state.notifications), buckets)
                && state.inventories == state.InventoriesAfterAll(old(state.inventories), buckets)
                && state.notifications == state.NotificationsAfterAll(old(state.notifications), buckets)
  {
    reports := [];
    if !sessionOk {
      return Ok(2), reports;
    }
    var buckets: seq<string>;
    if args.buckets != [] {
      buckets := args.buckets;
    } else {
      if tagged.Err? {
        if BadCredentials(tagged.error) {
          return Ok(2), reports;
        }
        return Err(tagged.error), reports;
      }
      buckets := DiscoverBuckets(tagged.value);
      if buckets == [] {
        return Ok(0), reports;
      }
    }
    if !args.yes {
      var ans := Lower(Strip(answer));
      if ans !in {"y", "yes"} {
        return Ok(1), reports;
      }
    }
    var anyErrors := false;
    if !args.dryRun {
      anyErrors, reports := CleanAll(state, buckets);
    }
    code := Ok(if anyErrors then 1 else 0);
  }
}
