/**
 * Discovery of the buckets tagged for backup: for each one, a daily S3
 * Inventory towards the central bucket and an "object created" queue
 * notification are put in place (idempotently), and the bucket's
 * criticality is read from its tags. Per-bucket failures are collected and
 * do not stop the others.
 */
module FindResources {
  import opened Base
  import opened Strings
  import IncrementalBackup

  const InventoryId := "AutoBackupInventory"
  const NotificationId := "BckIncrementalTrigger-SQS"
  const CriticalityTagKey := "BackupCriticality"

  /** The part of an inventory configuration the model keeps. */
  datatype Inventory = Inventory(frequency: string, destinationBucket: string, accountId: string, prefix: string)

  datatype QueueConfig = QueueConfig(id: Option<string>, queueArn: string, events: seq<string>)

  /**
   * A bucket's notification configuration: its queue configurations (the
   * key may be absent) and everything else, which is kept as it is.
   */
  datatype Notification = Notification(queues: Option<seq<QueueConfig>>, others: seq<string>)

  /** The inventory `create_inventory_configuration` puts. */
  function DailyInventory(central: string, accountId: string): Inventory
  {
    Inventory("Daily", "arn:aws:s3:::" + central, accountId, "inventory-source")
  }

  function Trigger(queueArn: string): QueueConfig
  {
    QueueConfig(Some(NotificationId), queueArn, ["s3:ObjectCreated:*"])
  }

  predicate HasTrigger(queues: seq<QueueConfig>)
  {
    exists i :: 0 <= i < |queues| && queues[i].id == Some(NotificationId)
  }

  function QueuesOf(n: Notification): seq<QueueConfig>
  {
    if n.queues.Some? then n.queues.value else []
  }

  /**
   * The configuration `ensure_event_notification_is_configured` leaves:
   * unchanged when the trigger exists, otherwise the trigger appended to
   * the existing queue configurations; `None` stands for a bucket that
   * answered NoSuchConfiguration.
   */
  function WithTrigger(current: Option<Notification>, queueArn: string): (r: Notification)
    ensures HasTrigger(QueuesOf(r))
    ensures current.Some? && HasTrigger(QueuesOf(current.value)) ==> r == current.value
    ensures current.Some? && !HasTrigger(QueuesOf(current.value))
            ==> r == Notification(Some(QueuesOf(current.value) + [Trigger(queueArn)]), current.value.others)
    ensures current.None? ==> r == Notification(Some([Trigger(queueArn)]), [])
  {
    match current
      case None =>
        assert [Trigger(queueArn)][0].id == Some(NotificationId);
        Notification(Some([Trigger(queueArn)]), [])
      case Some(n) =>
        if HasTrigger(QueuesOf(n)) then n
        else
          var queues := QueuesOf(n) + [Trigger(queueArn)];
          assert queues[|queues| - 1].id == Some(NotificationId);
          Notification(Some(queues), n.others)
  }

  /** Adding the trigger a second time changes nothing, whatever queue it names. */
  lemma WithTriggerIdempotent(current: Option<Notification>, queueArn: string, otherArn: string)
    ensures WithTrigger(Some(WithTrigger(current, queueArn)), otherArn) == WithTrigger(current, queueArn)
  {
  }

  /** Existing queue configurations are kept, in order, and at most one entry is added. */
  lemma WithTriggerKeeps(current: Notification, queueArn: string)
    ensures var after := QueuesOf(WithTrigger(Some(current), queueArn));
            |QueuesOf(current)| <= |after| <= |QueuesOf(current)| + 1
            && after[..|QueuesOf(current)|] == QueuesOf(current)
  {
    var after := QueuesOf(WithTrigger(Some(current), queueArn));
    if !HasTrigger(QueuesOf(current)) {
      assert after == QueuesOf(current) + [Trigger(queueArn)];
    }
  }

  /** `next(t["Value"] for t in tags if t["Key"] == key)`: the first tag with the key. */
  function FirstTagValue(tags: seq<IncrementalBackup.Tag>, key: string): (r: Option<string>)
    ensures r.None? <==> forall i :: 0 <= i < |tags| ==> tags[i].key != key
    ensures r.Some? ==> exists i :: 0 <= i < |tags| && tags[i] == IncrementalBackup.Tag(key, r.value)
                          && forall j :: 0 <= j < i ==> tags[j].key != key
  {
    if tags == [] then None
    else if tags[0].key == key then Some(tags[0].value)
    else
      var r := FirstTagValue(tags[1..], key);
      assert forall j :: 1 <= j < |tags| ==> tags[j] == tags[1..][j - 1];
      r
  }

  /** `get_bucket_criticality`: the first criticality tag, else the default; NoSuchTagSet gives the default. */
  function Criticality(answer: IncrementalBackup.TagAnswer): (r: Result<string>)
    ensures answer.TagError? ==> (r.Ok? <==> answer.code == "NoSuchTagSet")
    ensures answer.TagError? && r.Ok? ==> r.value == "MenosCritico"
    ensures answer.TagSet? ==> r.Ok?
    ensures answer.TagSet? && FirstTagValue(answer.tags, CriticalityTagKey).Some?
            ==> r.value == FirstTagValue(answer.tags, CriticalityTagKey).value
    ensures answer.TagSet? && FirstTagValue(answer.tags, CriticalityTagKey).None? ==> r.value == "MenosCritico"
  {
    match answer
      case TagError(code) => if code == "NoSuchTagSet" then Ok("MenosCritico") else Err(ClientError(code))
      case TagSet(tags) =>
        match FirstTagValue(tags, CriticalityTagKey)
          case Some(v) => Ok(v)
          case None => Ok("MenosCritico")
  }

  /**
   * Where this lambda keeps the first matching tag, the incremental
   * pipeline's dictionary keeps the last: the two agree whenever the
   * criticality tag occurs at most once.
   */
  lemma CriticalityAgreesWithIncremental(answer: IncrementalBackup.TagAnswer)
    requires answer.TagSet? ==> forall i, j :: 0 <= i < j < |answer.tags| && answer.tags[i].key == CriticalityTagKey
                                               ==> answer.tags[j].key != CriticalityTagKey
    ensures Criticality(answer) == IncrementalBackup.CriticalityOf(answer, CriticalityTagKey)
  {
    if answer.TagSet? {
      var tags := answer.tags;
      var first := FirstTagValue(tags, CriticalityTagKey);
      var last := IncrementalBackup.LastTagValue(tags, CriticalityTagKey);
      if first.Some? {
        var i :| 0 <= i < |tags| && tags[i] == IncrementalBackup.Tag(CriticalityTagKey, first.value)
                 && forall j :: 0 <= j < i ==> tags[j].key != CriticalityTagKey;
        var k :| 0 <= k < |tags| && tags[k] == IncrementalBackup.Tag(CriticalityTagKey, last.value)
                 && forall j :: k < j < |tags| ==> tags[j].key != CriticalityTagKey;
        assert i == k;
      }
    }
  }

  /** The buckets' inventory and notification configurations, which the lambda changes in place. */
  class Account {
    var inventories: map<string, Inventory>
    var notifications: map<string, Notification>
    /** Buckets that answer the inventory calls with AccessDenied. */
    const denied: set<string>
    /** Buckets that answer the notification calls with AccessDenied. */
    const notificationsDenied: set<string>

    constructor (inventories0: map<string, Inventory>, notifications0: map<string, Notification>,
                 denied0: set<string>, notificationsDenied0: set<string>)
      ensures inventories == inventories0 && notifications == notifications0
      ensures denied == denied0 && notificationsDenied == notificationsDenied0
    {
      inventories := inventories0;
      notifications := notifications0;
      denied := denied0;
      notificationsDenied := notificationsDenied0;
    }

    /** A bucket whose inventory is daily and whose notifications hold the trigger. */
    predicate Configured(bucket: string)
      reads this
    {
      bucket in inventories && inventories[bucket].frequency == "Daily"
      && bucket in notifications && HasTrigger(QueuesOf(notifications[bucket]))
    }

    /** `create_inventory_configuration`. */
    method CreateInventory(bucket: string, central: string, accountId: string) returns (r: Result<()>)
      modifies this
      ensures r.Ok? <==> bucket !in denied
      ensures r.Err? ==> r.error == ClientError("AccessDenied")
      ensures inventories == if r.Ok? then old(inventories)[bucket := DailyInventory(central, accountId)]
                             else old(inventories)
      ensures notifications == old(notifications)
    {
      if bucket in denied {
        return Err(ClientError("AccessDenied"));
      }
      inventories := inventories[bucket := DailyInventory(central, accountId)];
      r := Ok(());
    }

    /**
     * `ensure_inventory_exists`: a missing inventory (NoSuchConfiguration)
     * or one that is not daily is (re)created; a daily one is left alone.
     */
    method EnsureInventory(bucket: string, central: string, accountId: string) returns (r: Result<()>)
      modifies this
      ensures r.Ok? <==> bucket !in denied
      ensures r.Err? ==> r.error == ClientError("AccessDenied")
      ensures r.Ok? ==> bucket in inventories && inventories[bucket].frequency == "Daily"
      ensures old(bucket in inventories && inventories[bucket].frequency == "Daily") || r.Err?
              ==> inventories == old(inventories)
      ensures r.Ok? && old(bucket !in inventories || inventories[bucket].frequency != "Daily")
              ==> inventories == old(inventories)[bucket := DailyInventory(central, accountId)]
      ensures notifications == old(notifications)
    {
      if bucket in denied {
        return Err(ClientError("AccessDenied"));
      }
      if bucket !in inventories || inventories[bucket].frequency != "Daily" {
        r := CreateInventory(bucket, central, accountId);
      } else {
        r := Ok(());
      }
    }

    /** `ensure_event_notification_is_configured`. */
    method EnsureNotification(bucket: string, queueArn: string) returns (r: Result<()>)
      modifies this
      ensures r.Ok? <==> bucket !in notificationsDenied
      ensures r.Err? ==> r.error == ClientError("AccessDenied")
      ensures notifications == if r.Ok? then old(notifications)[bucket := WithTrigger(
                                  if bucket in old(notifications) then Some(old(notifications)[bucket]) else None,
                                  queueArn)]
                               else old(notifications)
      ensures inventories == old(inventories)
    {
      if bucket in notificationsDenied {
        return Err(ClientError("AccessDenied"));
      }
      var current := if bucket in notifications then Some(notifications[bucket]) else None;
      notifications := notifications[bucket := WithTrigger(current, queueArn)];
      r := Ok(());
    }
  }

  /** CENTRAL_BACKUP_BUCKET, CENTRAL_ACCOUNT_ID and SQS_QUEUE_ARN; an unset one is `None`. */
  datatype Env = Env(central: Option<string>, accountId: Option<string>, queueArn: Option<string>)

  datatype BucketRecord = BucketRecord(sourceBucket: string, inventoryKey: string, criticality: string,
                                       backupBucket: string)

  datatype BucketError = BucketError(bucket: string, error: Error)

  /** The result: the configured buckets, and `Errors` only when some bucket failed. */
  datatype Discovery = Discovery(buckets: seq<BucketRecord>, errors: Option<seq<BucketError>>)

  function InventoryKey(bucket: string): string
  {
    "inventory-source/" + bucket + "/" + InventoryId + "/"
  }

  function BucketName(arn: string): string
  {
    AfterLast(arn, ":::")
  }

  /**
   * What configuring one bucket gives: AccessDenied from the inventory or
   * the notification call, else the bucket's criticality (or the tagging
   * error).
   */
  function BucketOutcome(name: string, denied: set<string>, notificationsDenied: set<string>,
                         tagsOf: string -> IncrementalBackup.TagAnswer): (r: Result<string>)
    ensures r.Ok? <==> name !in denied && name !in notificationsDenied && Criticality(tagsOf(name)).Ok?
  {
    if name in denied || name in notificationsDenied then Err(ClientError("AccessDenied"))
    else Criticality(tagsOf(name))
  }

  /** The entry one discovered ARN contributes: a record, or the bucket's error. */
  function EntryOf(arn: string, central: string, denied: set<string>, notificationsDenied: set<string>,
                   tagsOf: string -> IncrementalBackup.TagAnswer): Result<BucketRecord>
  {
    var name := BucketName(arn);
    match BucketOutcome(name, denied, notificationsDenied, tagsOf)
      case Ok(c) => Ok(BucketRecord(name, InventoryKey(name), c, central))
      case Err(e) => Err(e)
  }

  /** The records of the ARNs whose bucket was configured, in discovery order. */
  function Records(arns: seq<string>, central: string, denied: set<string>, notificationsDenied: set<string>,
                   tagsOf: string -> IncrementalBackup.TagAnswer): seq<BucketRecord>
  {
    if arns == [] then []
    else
      var e := EntryOf(arns[|arns| - 1], central, denied, notificationsDenied, tagsOf);
      Records(arns[..|arns| - 1], central, denied, notificationsDenied, tagsOf)
      + if e.Ok? then [e.value] else []
  }

  /** The errors of the ARNs whose bucket failed, in discovery order. */
  function Failures(arns: seq<string>, central: string, denied: set<string>, notificationsDenied: set<string>,
                    tagsOf: string -> IncrementalBackup.TagAnswer): seq<BucketError>
  {
    if arns == [] then []
    else
      var e := EntryOf(arns[|arns| - 1], central, denied, notificationsDenied, tagsOf);
      Failures(arns[..|arns| - 1], central, denied, notificationsDenied, tagsOf)
      + if e.Err? then [BucketError(BucketName(arns[|arns| - 1]), e.error)] else []
  }

  /** Every configured discovered bucket's record is among the records. */
  lemma {:induction false} RecordsComplete(arns: seq<string>, central: string, denied: set<string>,
                                           notificationsDenied: set<string>,
                                           tagsOf: string -> IncrementalBackup.TagAnswer)
    ensures forall i :: 0 <= i < |arns| && EntryOf(arns[i], central, denied, notificationsDenied, tagsOf).Ok?
              ==> EntryOf(arns[i], central, denied, notificationsDenied, tagsOf).value
                  in Records(arns, central, denied, notificationsDenied, tagsOf)
  {
    if arns != [] {
      var init := arns[..|arns| - 1];
      RecordsComplete(init, central, denied, notificationsDenied, tagsOf);
      forall i | 0 <= i < |arns| - 1 ensures arns[i] == init[i] { }
    }
  }

  /** Every record is the entry of some discovered bucket. */
  lemma {:induction false} RecordsSound(arns: seq<string>, central: string, denied: set<string>,
                                        notificationsDenied: set<string>,
                                        tagsOf: string -> IncrementalBackup.TagAnswer)
    ensures forall rec :: rec in Records(arns, central, denied, notificationsDenied, tagsOf)
              ==> exists i :: 0 <= i < |arns| && EntryOf(arns[i], central, denied, notificationsDenied, tagsOf) == Ok(rec)
  {
    if arns != [] {
      var init := arns[..|arns| - 1];
      RecordsSound(init, central, denied, notificationsDenied, tagsOf);
      forall rec | rec in Records(arns, central, denied, notificationsDenied, tagsOf)
        ensures exists i :: 0 <= i < |arns| && EntryOf(arns[i], central, denied, notificationsDenied, tagsOf) == Ok(rec)
      {
        if rec in Records(init, central, denied, notificationsDenied, tagsOf) {
          var i :| 0 <= i < |init| && EntryOf(init[i], central, denied, notificationsDenied, tagsOf) == Ok(rec);
          assert arns[i] == init[i];
        } else {
          assert EntryOf(arns[|arns| - 1], central, denied, notificationsDenied, tagsOf) == Ok(rec);
        }
      }
    }
  }

  /** Each discovered ARN gives exactly one entry: a record or an error. */
  lemma {:induction false} EntriesCounted(arns: seq<string>, central: string, denied: set<string>,
                                          notificationsDenied: set<string>,
                                          tagsOf: string -> IncrementalBackup.TagAnswer)
    ensures |Records(arns, central, denied, notificationsDenied, tagsOf)|
            + |Failures(arns, central, denied, notificationsDenied, tagsOf)| == |arns|
  {
    if arns != [] {
      EntriesCounted(arns[..|arns| - 1], central, denied, notificationsDenied, tagsOf);
    }
  }

  /**
   * A discovered bucket gets a record exactly when its inventory and
   * notification calls are allowed and its criticality is read, and every
   * record is such a bucket's.
   */
  lemma RecordsExactly(arns: seq<string>, central: string, denied: set<string>,
                       notificationsDenied: set<string>,
                       tagsOf: string -> IncrementalBackup.TagAnswer)
    ensures forall i :: 0 <= i < |arns| && EntryOf(arns[i], central, denied, notificationsDenied, tagsOf).Ok?
              ==> EntryOf(arns[i], central, denied, notificationsDenied, tagsOf).value
                  in Records(arns, central, denied, notificationsDenied, tagsOf)
    ensures forall rec :: rec in Records(arns, central, denied, notificationsDenied, tagsOf)
              ==> exists i :: 0 <= i < |arns| && EntryOf(arns[i], central, denied, notificationsDenied, tagsOf) == Ok(rec)
    ensures |Records(arns, central, denied, notificationsDenied, tagsOf)|
            + |Failures(arns, central, denied, notificationsDenied, tagsOf)| == |arns|
  {
    RecordsComplete(arns, central, denied, notificationsDenied, tagsOf);
    RecordsSound(arns, central, denied, notificationsDenied, tagsOf);
    EntriesCounted(arns, central, denied, notificationsDenied, tagsOf);
  }

  /** A record is that of a discovered bucket whose calls were allowed, with its criticality. */
  lemma RecordFacts(arns: seq<string>, central: string, denied: set<string>,
                    notificationsDenied: set<string>, tagsOf: string -> IncrementalBackup.TagAnswer)
    ensures |Records(arns, central, denied, notificationsDenied, tagsOf)|
            + |Failures(arns, central, denied, notificationsDenied, tagsOf)| == |arns|
    ensures forall rec :: rec in Records(arns, central, denied, notificationsDenied, tagsOf) ==>
              rec.inventoryKey == InventoryKey(rec.sourceBucket) && rec.backupBucket == central
              && Criticality(tagsOf(rec.sourceBucket)) == Ok(rec.criticality)
              && rec.sourceBucket !in denied
              && exists i :: 0 <= i < |arns| && BucketName(arns[i]) == rec.sourceBucket
  {
    RecordsExactly(arns, central, denied, notificationsDenied, tagsOf);
    forall rec | rec in Records(arns, central, denied, notificationsDenied, tagsOf)
      ensures rec.inventoryKey == InventoryKey(rec.sourceBucket) && rec.backupBucket == central
              && Criticality(tagsOf(rec.sourceBucket)) == Ok(rec.criticality)
              && rec.sourceBucket !in denied
              && exists i :: 0 <= i < |arns| && BucketName(arns[i]) == rec.sourceBucket
    {
      var i :| 0 <= i < |arns| && EntryOf(arns[i], central, denied, notificationsDenied, tagsOf) == Ok(rec);
    }
  }

  /** Every error entry names a discovered bucket. */
  lemma {:induction false} FailuresFrom(arns: seq<string>, central: string, denied: set<string>,
                                        notificationsDenied: set<string>,
                                        tagsOf: string -> IncrementalBackup.TagAnswer)
    ensures forall e :: e in Failures(arns, central, denied, notificationsDenied, tagsOf)
              ==> exists i :: 0 <= i < |arns| && BucketName(arns[i]) == e.bucket
  {
    if arns != [] {
      var init := arns[..|arns| - 1];
      FailuresFrom(init, central, denied, notificationsDenied, tagsOf);
      forall e | e in Failures(arns, central, denied, notificationsDenied, tagsOf)
        ensures exists i :: 0 <= i < |arns| && BucketName(arns[i]) == e.bucket
      {
        if e in Failures(init, central, denied, notificationsDenied, tagsOf) {
          var i :| 0 <= i < |init| && BucketName(init[i]) == e.bucket;
          assert arns[i] == init[i];
        } else {
          assert BucketName(arns[|arns| - 1]) == e.bucket;
        }
      }
    }
  }

  /** One more ARN adds its entry to the records or to the errors. */
  lemma EntriesStep(arns: seq<string>, i: nat, central: string, denied: set<string>,
                    notificationsDenied: set<string>, tagsOf: string -> IncrementalBackup.TagAnswer)
    requires i < |arns|
    ensures var e := EntryOf(arns[i], central, denied, notificationsDenied, tagsOf);
            && Records(arns[..i + 1], central, denied, notificationsDenied, tagsOf)
               == Records(arns[..i], central, denied, notificationsDenied, tagsOf) + (if e.Ok? then [e.value] else [])
            && Failures(arns[..i + 1], central, denied, notificationsDenied, tagsOf)
               == Failures(arns[..i], central, denied, notificationsDenied, tagsOf)
                  + (if e.Err? then [BucketError(BucketName(arns[i]), e.error)] else [])
  {
    assert arns[..i + 1][..i] == arns[..i];
  }

  /**
   * What configuring one bucket does to the account's inventories and
   * notifications: nothing when its inventory call is refused; otherwise a
   * missing or non-daily inventory becomes the daily one, and then, unless
   * the notification call is refused, its notifications become `WithTrigger`
   * of the current ones.
   */
  function ConfigureEffect(inventories: map<string, Inventory>, notifications: map<string, Notification>,
                           name: string, central: string, accountId: string, queueArn: string,
                           denied: set<string>, notificationsDenied: set<string>)
    : (r: (map<string, Inventory>, map<string, Notification>))
    ensures name in denied ==> r == (inventories, notifications)
    ensures name !in denied ==> name in r.0 && r.0[name].frequency == "Daily"
    ensures name !in denied && name !in notificationsDenied ==> name in r.1 && HasTrigger(QueuesOf(r.1[name]))
    ensures forall b :: b != name ==> SameAt(r.0, inventories, b) && SameAt(r.1, notifications, b)
  {
    if name in denied then (inventories, notifications)
    else
      var inventories' := if name in inventories && inventories[name].frequency == "Daily" then inventories
                          else inventories[name := DailyInventory(central, accountId)];
      if name in notificationsDenied then (inventories', notifications)
      else
        var current := if name in notifications then Some(notifications[name]) else None;
        (inventories', notifications[name := WithTrigger(current, queueArn)])
  }

  /** Two maps agree at a key: both lack it, or both hold the same value. */
  predicate SameAt<V(==)>(m: map<string, V>, m': map<string, V>, k: string)
  {
    (k in m <==> k in m') && (k in m ==> m[k] == m'[k])
  }

  /** The inventories and notifications after configuring the buckets of `arns` in turn. */
  function Configurations(inventories: map<string, Inventory>, notifications: map<string, Notification>,
                          arns: seq<string>, central: string, accountId: string, queueArn: string,
                          denied: set<string>, notificationsDenied: set<string>)
    : (map<string, Inventory>, map<string, Notification>)
  {
    if arns == [] then (inventories, notifications)
    else
      var before := Configurations(inventories, notifications, arns[..|arns| - 1], central, accountId, queueArn,
                                   denied, notificationsDenied);
      ConfigureEffect(before.0, before.1, BucketName(arns[|arns| - 1]), central, accountId, queueArn,
                      denied, notificationsDenied)
  }

  /** A bucket no ARN names keeps its inventory and its notifications. */
  lemma {:induction false} UnnamedUntouched(inventories: map<string, Inventory>, notifications: map<string, Notification>,
                                            arns: seq<string>, central: string, accountId: string, queueArn: string,
                                            denied: set<string>, notificationsDenied: set<string>, b: string)
    requires forall i :: 0 <= i < |arns| ==> BucketName(arns[i]) != b
    ensures var r := Configurations(inventories, notifications, arns, central, accountId, queueArn,
                                    denied, notificationsDenied);
            SameAt(r.0, inventories, b) && SameAt(r.1, notifications, b)
  {
    if arns != [] {
      var init := arns[..|arns| - 1];
      var before := Configurations(inventories, notifications, init, central, accountId, queueArn,
                                   denied, notificationsDenied);
      UnnamedUntouched(inventories, notifications, init, central, accountId, queueArn, denied, notificationsDenied, b);
      var r := ConfigureEffect(before.0, before.1, BucketName(arns[|arns| - 1]), central, accountId, queueArn,
                               denied, notificationsDenied);
      assert SameAt(r.0, before.0, b) && SameAt(r.1, before.1, b);
    }
  }

  /**
   * A named bucket whose inventory call is allowed ends with a daily
   * inventory, and with the trigger when its notification call is allowed
   * too, whatever the later buckets do.
   */
  lemma {:induction false} NamedConfigured(inventories: map<string, Inventory>, notifications: map<string, Notification>,
                                           arns: seq<string>, central: string, accountId: string, queueArn: string,
                                           denied: set<string>, notificationsDenied: set<string>, i: nat)
    requires i < |arns| && BucketName(arns[i]) !in denied
    ensures var r := Configurations(inventories, notifications, arns, central, accountId, queueArn,
                                    denied, notificationsDenied);
            var b := BucketName(arns[i]);
            b in r.0 && r.0[b].frequency == "Daily"
            && (b !in notificationsDenied ==> b in r.1 && HasTrigger(QueuesOf(r.1[b])))
  {
    var init := arns[..|arns| - 1];
    var last := BucketName(arns[|arns| - 1]);
    var before := Configurations(inventories, notifications, init, central, accountId, queueArn,
                                 denied, notificationsDenied);
    var r := ConfigureEffect(before.0, before.1, last, central, accountId, queueArn, denied, notificationsDenied);
    if i < |arns| - 1 && last != BucketName(arns[i]) {
      assert init[i] == arns[i];
      NamedConfigured(inventories, notifications, init, central, accountId, queueArn, denied, notificationsDenied, i);
      assert SameAt(r.0, before.0, BucketName(arns[i])) && SameAt(r.1, before.1, BucketName(arns[i]));
    }
  }

  /** The loop of `lambda_handler` over the discovered ARNs. */
  method ConfigureAll(account: Account, arns: seq<string>, central: string, accountId: string, queueArn: string,
                      tagsOf: string -> IncrementalBackup.TagAnswer)
    returns (records: seq<BucketRecord>, errors: seq<BucketError>)
    modifies account
    ensures records == Records(arns, central, account.denied, account.notificationsDenied, tagsOf)
    ensures errors == Failures(arns, central, account.denied, account.notificationsDenied, tagsOf)
    ensures |records| + |errors| == |arns|
    ensures forall rec :: rec in records ==>
              account.Configured(rec.sourceBucket) && rec.inventoryKey == InventoryKey(rec.sourceBucket)
              && rec.backupBucket == central && Criticality(tagsOf(rec.sourceBucket)) == Ok(rec.criticality)
              && exists i :: 0 <= i < |arns| && BucketName(arns[i]) == rec.sourceBucket
    ensures forall e :: e in errors ==> exists i :: 0 <= i < |arns| && BucketName(arns[i]) == e.bucket
    ensures forall b :: b in account.denied ==> forall e :: e in records ==> e.sourceBucket != b
    ensures forall b :: b !in old(account.inventories) && b !in account.denied
              ==> b !in account.inventories || exists i :: 0 <= i < |arns| && BucketName(arns[i]) == b
    ensures (account.inventories, account.notifications)
            == Configurations(old(account.inventories), old(account.notifications), arns, central, accountId, queueArn,
                              account.denied, account.notificationsDenied)
    ensures forall b :: (forall i :: 0 <= i < |arns| ==> BucketName(arns[i]) != b)
              ==> SameAt(account.inventories, old(account.inventories), b)
                  && SameAt(account.notifications, old(account.notifications), b)
    ensures forall i :: 0 <= i < |arns| && BucketName(arns[i]) !in account.denied
              ==> BucketName(arns[i]) in account.inventories
                  && account.inventories[BucketName(arns[i])].frequency == "Daily"
                  && (BucketName(arns[i]) !in account.notificationsDenied
                      ==> BucketName(arns[i]) in account.notifications
                          && HasTrigger(QueuesOf(account.notifications[BucketName(arns[i])])))
  {
    records := [];
    errors := [];
    var i := 0;
    while i < |arns|
      invariant 0 <= i <= |arns|
      invariant records == Records(arns[..i], central, account.denied, account.notificationsDenied, tagsOf)
      invariant errors == Failures(arns[..i], central, account.denied, account.notificationsDenied, tagsOf)
      invariant forall rec :: rec in records ==> account.Configured(rec.sourceBucket)
      invariant forall b :: b !in old(account.inventories) && b !in account.denied
                  ==> b !in account.inventories || exists j :: 0 <= j < i && BucketName(arns[j]) == b
      invariant (account.inventories, account.notifications)
                == Configurations(old(account.inventories), old(account.notifications), arns[..i], central, accountId,
                                  queueArn, account.denied, account.notificationsDenied)
    {
      EntriesStep(arns, i, central, account.denied, account.notificationsDenied, tagsOf);
      assert arns[..i + 1][..i] == arns[..i];
      var name := BucketName(arns[i]);
      var outcome := ConfigureOne(account, name, central, accountId, queueArn, tagsOf);
      if outcome.Ok? {
        records := records + [BucketRecord(name, InventoryKey(name), outcome.value, central)];
      } else {
        errors := errors + [BucketError(name, outcome.error)];
      }
      i := i + 1;
    }
    assert arns[..i] == arns;
    RecordFacts(arns, central, account.denied, account.notificationsDenied, tagsOf);
    FailuresFrom(arns, central, account.denied, account.notificationsDenied, tagsOf);
    forall b | forall i :: 0 <= i < |arns| ==> BucketName(arns[i]) != b
      ensures SameAt(account.inventories, old(account.inventories), b)
              && SameAt(account.notifications, old(account.notifications), b)
    {
      UnnamedUntouched(old(account.inventories), old(account.notifications), arns, central, accountId, queueArn,
                       account.denied, account.notificationsDenied, b);
    }
    forall i | 0 <= i < |arns| && BucketName(arns[i]) !in account.denied
      ensures BucketName(arns[i]) in account.inventories
              && account.inventories[BucketName(arns[i])].frequency == "Daily"
              && (BucketName(arns[i]) !in account.notificationsDenied
                  ==> BucketName(arns[i]) in account.notifications
                      && HasTrigger(QueuesOf(account.notifications[BucketName(arns[i])])))
    {
      NamedConfigured(old(account.inventories), old(account.notifications), arns, central, accountId, queueArn,
                      account.denied, account.notificationsDenied, i);
    }
  }

  /**
   * The body of the loop for one bucket: inventory, notification, then
   * criticality. Other buckets' configurations are untouched, and a
   * configured bucket stays configured.
   */
  method ConfigureOne(account: Account, name: string, central: string, accountId: string, queueArn: string,
                      tagsOf: string -> IncrementalBackup.TagAnswer) returns (r: Result<string>)
    modifies account
    ensures r == BucketOutcome(name, account.denied, account.notificationsDenied, tagsOf)
    ensures (account.inventories, account.notifications)
            == ConfigureEffect(old(account.inventories), old(account.notifications), name, central, accountId, queueArn,
                               account.denied, account.notificationsDenied)
    ensures r.Ok? ==> account.Configured(name) && name !in account.denied && name !in account.notificationsDenied
                      && Criticality(tagsOf(name)) == r
    ensures forall b :: b != name ==> (b in account.inventories <==> b in old(account.inventories))
    ensures forall b :: b != name && b in account.inventories ==> account.inventories[b] == old(account.inventories)[b]
    ensures forall b :: b != name && b in account.notifications
              ==> b in old(account.notifications) && account.notifications[b] == old(account.notifications)[b]
    ensures forall b :: b != name && b in old(account.notifications) ==> b in account.notifications
    ensures name in account.denied ==> account.inventories == old(account.inventories)
    ensures forall b :: old(account.Configured(b)) ==> account.Configured(b)
  {
    var inv := account.EnsureInventory(name, central, accountId);
    if inv.Err? {
      return Err(inv.error);
    }
    var notified := account.EnsureNotification(name, queueArn);
    if notified.Err? {
      return Err(notified.error);
    }
    r := Criticality(tagsOf(name));
  }

  /**
   * `lambda_handler`: an unset environment variable raises `KeyError`, a
   * failed tag search raises, no tagged bucket gives an empty result, and
   * otherwise every bucket yields a record or an error entry.
   */
  method Handle(env: Env, account: Account, tagged: Result<seq<string>>,
                tagsOf: string -> IncrementalBackup.TagAnswer) returns (r: Result<Discovery>)
    modifies account
    ensures env.central.None? || env.accountId.None? || env.queueArn.None?
            ==> r.Err? && r.error.KeyError? && account.inventories == old(account.inventories)
                && account.notifications == old(account.notifications)
    ensures env.central.Some? && env.accountId.Some? && env.queueArn.Some? && tagged.Err? ==> r == Err(tagged.error)
    ensures r.Err? ==> account.inventories == old(account.inventories)
                       && account.notifications == old(account.notifications)
    ensures r.Ok? ==> (account.inventories, account.notifications)
                      == Configurations(old(account.inventories), old(account.notifications), tagged.value,
                                        env.central.value, env.accountId.value, env.queueArn.value,
                                        account.denied, account.notificationsDenied)
    ensures r.Ok? ==> forall b :: (forall i :: 0 <= i < |tagged.value| ==> BucketName(tagged.value[i]) != b)
                        ==> SameAt(account.inventories, old(account.inventories), b)
                            && SameAt(account.notifications, old(account.notifications), b)
    ensures r.Ok? <==> env.central.Some? && env.accountId.Some? && env.queueArn.Some? && tagged.Ok?
    ensures r.Ok? ==> r.value.buckets
                      == Records(tagged.value, env.central.value, account.denied, account.notificationsDenied, tagsOf)
    ensures r.Ok? ==> (r.value.errors.Some?
                       <==> Failures(tagged.value, env.central.value, account.denied, account.notificationsDenied, tagsOf) != [])
    ensures r.Ok? && r.value.errors.Some?
            ==> r.value.errors.value
                == Failures(tagged.value, env.central.value, account.denied, account.notificationsDenied, tagsOf)
    ensures r.Ok? && tagged.value == [] ==> r.value == Discovery([], None)
    ensures r.Ok? ==> |r.value.buckets| + (if r.value.errors.Some? then |r.value.errors.value| else 0)
                      == |tagged.value|
    ensures r.Ok? ==> (r.value.errors.Some? ==> r.value.errors.value != [])
    ensures r.Ok? ==> forall rec :: rec in r.value.buckets ==>
                        account.Configured(rec.sourceBucket) && rec.backupBucket == env.central.value
                        && rec.inventoryKey == InventoryKey(rec.sourceBucket)
                        && Criticality(tagsOf(rec.sourceBucket)) == Ok(rec.criticality)
  {
    if env.central.None? {
      return Err(KeyError("CENTRAL_BACKUP_BUCKET"));
    }
    if env.accountId.None? {
      return Err(KeyError("CENTRAL_ACCOUNT_ID"));
    }
    if env.queueArn.None? {
      return Err(KeyError("SQS_QUEUE_ARN"));
    }
    if tagged.Err? {
      return Err(tagged.error);
    }
    if tagged.value == [] {
      return Ok(Discovery([], None));
    }
    var records, errors := ConfigureAll(account, tagged.value, env.central.value, env.accountId.value,
                                        env.queueArn.value, tagsOf);
    r := Ok(Discovery(records, if errors == [] then None else Some(errors)));
  }
}
