/**
 * The backup admin app's manager: a description of every configured
 * account, and the start of a backup state machine execution for one
 * account, with its execution name and input document.
 */
module AdminManager {
  import opened Base
  import opened Stamps
  import opened Documents
  import opened AdminConfig

  /** What `describe_accounts` shows of one account. */
  datatype Description = Description(
    name: Scalar, accountId: string, region: Scalar, defaultGeneration: Scalar, backupArn: Scalar)

  function Describe(a: AccountConfig): Description
  {
    Description(a.name, a.accountId, a.region, a.defaultGeneration, a.backupArn)
  }

  /** The dict comprehension over a list of accounts: a later account with the same key wins. */
  function DescribeList(accounts: seq<AccountConfig>): map<Scalar, Description>
  {
    if accounts == [] then map[]
    else
      var a := accounts[|accounts| - 1];
      DescribeList(accounts[..|accounts| - 1])[a.key := Describe(a)]
  }

  /** `describe_accounts`: one description per account of the configuration, under its key. */
  function DescribeAccounts(c: AppConfig): (r: map<Scalar, Description>)
    requires WellFormed(c)
    ensures r.Keys == c.byKey.Keys
    ensures forall k :: k in r ==> r[k] == Describe(c.byKey[k])
  {
    DescribeOrdered(c);
    DescribeList(Accounts(c))
  }

  lemma DescribeOrdered(c: AppConfig)
    requires WellFormed(c)
    ensures DescribeList(Accounts(c)).Keys == c.byKey.Keys
    ensures forall k :: k in DescribeList(Accounts(c)) ==> DescribeList(Accounts(c))[k] == Describe(c.byKey[k])
  {
    var accounts := Accounts(c);
    var d := DescribeList(accounts);
    DescribeListKeys(accounts);
    forall k | k in c.byKey ensures k in d {
      var i :| 0 <= i < |c.order| && c.order[i] == k;
      assert accounts[i].key == k;
    }
    forall k | k in d ensures k in c.byKey && d[k] == Describe(c.byKey[k]) {
      var i := DescribeListWitness(accounts, k);
      assert accounts[i] == c.byKey[c.order[i]];
    }
  }

  /** The described keys are those of the accounts. */
  lemma {:induction false} DescribeListKeys(accounts: seq<AccountConfig>)
    ensures forall i :: 0 <= i < |accounts| ==> accounts[i].key in DescribeList(accounts)
    ensures forall k :: k in DescribeList(accounts) ==> exists i :: 0 <= i < |accounts| && accounts[i].key == k
  {
    if accounts != [] {
      var init := accounts[..|accounts| - 1];
      DescribeListKeys(init);
      forall k | k in DescribeList(accounts)
        ensures exists i :: 0 <= i < |accounts| && accounts[i].key == k
      {
        if k != accounts[|accounts| - 1].key {
          assert k in DescribeList(init);
          var i :| 0 <= i < |init| && init[i].key == k;
          assert accounts[i] == init[i];
        }
      }
    }
  }

  /** Each described key describes an account of the list that has it. */
  lemma {:induction false} DescribeListLast(accounts: seq<AccountConfig>)
    ensures forall k :: k in DescribeList(accounts) ==>
              exists i :: 0 <= i < |accounts| && accounts[i].key == k && DescribeList(accounts)[k] == Describe(accounts[i])
  {
    if accounts != [] {
      var init := accounts[..|accounts| - 1];
      DescribeListLast(init);
      forall k | k in DescribeList(accounts)
        ensures exists i :: 0 <= i < |accounts| && accounts[i].key == k && DescribeList(accounts)[k] == Describe(accounts[i])
      {
        var a := accounts[|accounts| - 1];
        assert DescribeList(accounts) == DescribeList(init)[a.key := Describe(a)];
        if k == a.key {
          assert accounts[|accounts| - 1].key == k;
        } else {
          assert k in DescribeList(init);
          var i :| 0 <= i < |init| && init[i].key == k && DescribeList(init)[k] == Describe(init[i]);
          assert accounts[i] == init[i];
        }
      }
    }
  }

  lemma DescribeListWitness(accounts: seq<AccountConfig>, k: Scalar) returns (i: nat)
    requires k in DescribeList(accounts)
    ensures i < |accounts| && accounts[i].key == k && DescribeList(accounts)[k] == Describe(accounts[i])
  {
    DescribeListLast(accounts);
    i :| 0 <= i < |accounts| && accounts[i].key == k && DescribeList(accounts)[k] == Describe(accounts[i]);
  }

  // ---------------------------------------------------------------------
  // _execution_name

  /** `%Y%m%d%H%M%S`. */
  function CompactStamp(t: DateTime): (r: string)
    ensures |r| == 14 && AllDigits(r)
  {
    DateDigits(t) + Pad(t.hour, 2) + Pad(t.minute, 2) + Pad(t.second, 2)
  }

  /** Two compact stamps are equal only for the same second. */
  lemma CompactStampInjective(a: DateTime, b: DateTime)
    requires Valid(a) && Valid(b)
    requires CompactStamp(a) == CompactStamp(b)
    ensures a.year == b.year && a.month == b.month && a.day == b.day
    ensures a.hour == b.hour && a.minute == b.minute && a.second == b.second
  {
    var la, lb := CompactStamp(a), CompactStamp(b);
    assert la[0..4] == Pad(a.year, 4) && lb[0..4] == Pad(b.year, 4);
    assert la[4..6] == Pad(a.month, 2) && lb[4..6] == Pad(b.month, 2);
    assert la[6..8] == Pad(a.day, 2) && lb[6..8] == Pad(b.day, 2);
    assert la[8..10] == Pad(a.hour, 2) && lb[8..10] == Pad(b.hour, 2);
    assert la[10..12] == Pad(a.minute, 2) && lb[10..12] == Pad(b.minute, 2);
    assert la[12..14] == Pad(a.second, 2) && lb[12..14] == Pad(b.second, 2);
    PadInjective(a.year, b.year, 4);
    PadInjective(a.month, b.month, 2);
    PadInjective(a.day, b.day, 2);
    PadInjective(a.hour, b.hour, 2);
    PadInjective(a.minute, b.minute, 2);
    PadInjective(a.second, b.second, 2);
  }

  /** The most characters Step Functions accepts in an execution name. */
  const MaxNameLength := 80

  function FullName(key: string, suffix: string, t: DateTime): string
  {
    key + "-" + suffix + "-" + CompactStamp(t)
  }

  /** `_execution_name`: `{key}-{suffix}-{timestamp}` cut to its first 80 characters. */
  function ExecutionName(key: string, suffix: string, t: DateTime): (r: string)
    ensures |r| <= MaxNameLength
    ensures r <= FullName(key, suffix, t)
    ensures |r| == if |FullName(key, suffix, t)| <= MaxNameLength then |FullName(key, suffix, t)| else MaxNameLength
  {
    var full := FullName(key, suffix, t);
    if |full| <= MaxNameLength then full else full[..MaxNameLength]
  }

  /**
   * When key and suffix leave room for the stamp, the name is whole and
   * names started in different seconds differ.
   */
  lemma ExecutionNamesDistinct(key: string, suffix: string, a: DateTime, b: DateTime)
    requires |key| + |suffix| + 16 <= MaxNameLength
    requires Valid(a) && Valid(b)
    requires ExecutionName(key, suffix, a) == ExecutionName(key, suffix, b)
    ensures a.year == b.year && a.month == b.month && a.day == b.day
    ensures a.hour == b.hour && a.minute == b.minute && a.second == b.second
  {
    var na, nb := ExecutionName(key, suffix, a), ExecutionName(key, suffix, b);
    var n := |key| + |suffix| + 2;
    assert na[n..] == CompactStamp(a);
    assert nb[n..] == CompactStamp(b);
    CompactStampInjective(a, b);
  }

  /** A key too long for the stamp gives the same name at every instant. */
  lemma LongKeyNameIgnoresTime(key: string, suffix: string, a: DateTime, b: DateTime)
    requires |key| >= MaxNameLength
    ensures ExecutionName(key, suffix, a) == ExecutionName(key, suffix, b) == key[..MaxNameLength]
  {
    assert FullName(key, suffix, a)[..MaxNameLength] == key[..MaxNameLength];
    assert FullName(key, suffix, b)[..MaxNameLength] == key[..MaxNameLength];
  }

  // ---------------------------------------------------------------------
  // trigger_backup

  /** `generation or account.default_generation`. */
  function Generation(account: AccountConfig, generation: Option<string>): Scalar
  {
    if Truthy(generation) then Text(generation.value) else account.defaultGeneration
  }

  /** The execution input: the three base keys, then the payload's keys over them when there are any. */
  function ExecutionInput(account: AccountConfig, backupType: string, criticality: string,
                          generation: Option<string>, payload: map<string, Scalar>): map<string, Scalar>
  {
    var base := map["BackupType" := Text(backupType), "Criticality" := Text(criticality),
                    "Generation" := Generation(account, generation)];
    if |payload| > 0 then base + payload else base
  }

  /**
   * The input holds the three base keys and the payload's keys; a payload
   * value replaces a base value, and a base key the payload lacks keeps
   * its own value.
   */
  lemma ExecutionInputContents(account: AccountConfig, backupType: string, criticality: string,
                               generation: Option<string>, payload: map<string, Scalar>)
    ensures var r := ExecutionInput(account, backupType, criticality, generation, payload);
            && r.Keys == {"BackupType", "Criticality", "Generation"} + payload.Keys
            && (forall k :: k in payload ==> r[k] == payload[k])
            && ("BackupType" !in payload ==> r["BackupType"] == Text(backupType))
            && ("Criticality" !in payload ==> r["Criticality"] == Text(criticality))
            && ("Generation" !in payload ==> r["Generation"] == Generation(account, generation))
  {
  }

  /** A given generation is used; otherwise the account's default. */
  lemma GenerationFallsBack(account: AccountConfig, generation: Option<string>)
    ensures generation.Some? && generation.value != "" ==> Generation(account, generation) == Text(generation.value)
    ensures generation.None? || generation.value == "" ==> Generation(account, generation) == account.defaultGeneration
  {
  }

  /**
   * `trigger_backup`, with the clock reading `now`, the failure of assuming
   * the account's role as `sessionError`, and Step Functions' answer to
   * `start_execution(arn, name, input)` as `start`.
   */
  function TriggerBackup(c: AppConfig, key: string, criticality: string, backupType: string,
                         generation: Option<string>, payload: map<string, Scalar>, now: DateTime,
                         sessionError: Option<Error>,
                         start: (Scalar, string, map<string, Scalar>) -> Result<string>): (r: Result<string>)
    ensures Get(c, key).Err? ==> r == Err(Get(c, key).error)
    ensures Get(c, key).Ok? && !ScalarTruthy(Get(c, key).value.backupArn) ==>
              r == Err(ValueError("Account '" + key + "' does not define a backup state machine ARN"))
    ensures Get(c, key).Ok? && ScalarTruthy(Get(c, key).value.backupArn) && sessionError.Some? ==>
              r == Err(sessionError.value)
    ensures Get(c, key).Ok? && ScalarTruthy(Get(c, key).value.backupArn) && sessionError.None? ==>
              var account := Get(c, key).value;
              r == start(account.backupArn, ExecutionName(key, "backup", now),
                         ExecutionInput(account, backupType, criticality, generation, payload))
  {
    var account := Get(c, key);
    if account.Err? then Err(account.error)
    else if !ScalarTruthy(account.value.backupArn) then
      Err(ValueError("Account '" + key + "' does not define a backup state machine ARN"))
    else if sessionError.Some? then Err(sessionError.value)
    else
      start(account.value.backupArn, ExecutionName(key, "backup", now),
            ExecutionInput(account.value, backupType, criticality, generation, payload))
  }

  /**
   * The ARN is checked before any client exists: an account without one
   * fails the same way whatever assuming the role or starting would do.
   */
  lemma ArnCheckedFirst(c: AppConfig, key: string, criticality: string, backupType: string,
                        generation: Option<string>, payload: map<string, Scalar>, now: DateTime,
                        e1: Option<Error>, e2: Option<Error>,
                        s1: (Scalar, string, map<string, Scalar>) -> Result<string>,
                        s2: (Scalar, string, map<string, Scalar>) -> Result<string>)
    requires Text(key) in c.byKey && !ScalarTruthy(c.byKey[Text(key)].backupArn)
    ensures TriggerBackup(c, key, criticality, backupType, generation, payload, now, e1, s1)
            == TriggerBackup(c, key, criticality, backupType, generation, payload, now, e2, s2)
            == Err(ValueError("Account '" + key + "' does not define a backup state machine ARN"))
  {
  }

  /** Only an execution that was started yields an execution ARN. */
  lemma TriggerNeedsStart(c: AppConfig, key: string, criticality: string, backupType: string,
                          generation: Option<string>, payload: map<string, Scalar>, now: DateTime,
                          sessionError: Option<Error>,
                          start: (Scalar, string, map<string, Scalar>) -> Result<string>)
    requires TriggerBackup(c, key, criticality, backupType, generation, payload, now, sessionError, start).Ok?
    ensures Text(key) in c.byKey && ScalarTruthy(c.byKey[Text(key)].backupArn) && sessionError.None?
    ensures var account := c.byKey[Text(key)];
            TriggerBackup(c, key, criticality, backupType, generation, payload, now, sessionError, start)
            == start(account.backupArn, ExecutionName(key, "backup", now),
                     ExecutionInput(account, backupType, criticality, generation, payload))
  {
  }
}
