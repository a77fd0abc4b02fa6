/**
 * The configuration of the backup admin app: one entry per AWS account,
 * indexed by the account's key. Entries are read from the loaded YAML
 * document as they are, without type checks: only `account_id` is turned
 * into a string, and a missing `default_generation` reads as "son".
 */
module AdminConfig {
  import opened Base
  import opened Documents

  datatype AccountConfig = AccountConfig(
    key: Scalar, name: Scalar, accountId: string, region: Scalar, roleArn: Scalar,
    backupArn: Scalar, restoreArn: Scalar, defaultGeneration: Scalar)

  /**
   * The account dict: its keys in insertion order, and the account each
   * key maps to.
   */
  datatype AppConfig = AppConfig(order: seq<Scalar>, byKey: map<Scalar, AccountConfig>)

  const DefaultGeneration := Text("son")

  // ---------------------------------------------------------------------
  // AppConfig

  /** `{acc.key: acc for acc in accounts}`: a later account with the same key replaces the earlier one in place. */
  function Index(accounts: seq<AccountConfig>): AppConfig
  {
    if accounts == [] then AppConfig([], map[])
    else
      var c := Index(accounts[..|accounts| - 1]);
      var a := accounts[|accounts| - 1];
      AppConfig(if a.key in c.byKey then c.order else c.order + [a.key], c.byKey[a.key := a])
  }

  /** The dict's keys are listed once each, in order, and every account sits under its own key. */
  predicate WellFormed(c: AppConfig)
  {
    (forall i :: 0 <= i < |c.order| ==> c.order[i] in c.byKey)
    && (forall k :: k in c.byKey ==> k in c.order)
    && (forall i, j :: 0 <= i < j < |c.order| ==> c.order[i] != c.order[j])
    && (forall k :: k in c.byKey ==> c.byKey[k].key == k)
  }

  /** The last account in the list with key `k`. */
  predicate LastWithKey(accounts: seq<AccountConfig>, k: Scalar, a: AccountConfig)
  {
    exists i :: 0 <= i < |accounts| && accounts[i] == a && a.key == k
                && forall j :: i < j < |accounts| ==> accounts[j].key != k
  }

  /** The index is well formed. */
  lemma {:induction false} IndexWellFormed(accounts: seq<AccountConfig>)
    ensures WellFormed(Index(accounts))
  {
    if accounts != [] {
      IndexWellFormed(accounts[..|accounts| - 1]);
    }
  }

  /** The index holds exactly the keys of the accounts. */
  lemma {:induction false} IndexKeys(accounts: seq<AccountConfig>)
    ensures forall k :: k in Index(accounts).byKey <==> exists i :: 0 <= i < |accounts| && accounts[i].key == k
  {
    if accounts != [] {
      var init := accounts[..|accounts| - 1];
      IndexKeys(init);
      forall k ensures k in Index(accounts).byKey <==> exists i :: 0 <= i < |accounts| && accounts[i].key == k {
        if exists i :: 0 <= i < |init| && init[i].key == k {
          var i :| 0 <= i < |init| && init[i].key == k;
          assert accounts[i] == init[i];
        }
        if exists i :: 0 <= i < |accounts| && accounts[i].key == k {
          var i :| 0 <= i < |accounts| && accounts[i].key == k;
          if i < |init| { assert init[i] == accounts[i]; }
        }
      }
    }
  }

  /** Under each key the index holds the last account that has it. */
  lemma {:induction false} IndexLast(accounts: seq<AccountConfig>)
    ensures forall k :: k in Index(accounts).byKey ==> LastWithKey(accounts, k, Index(accounts).byKey[k])
  {
    if accounts != [] {
      var init := accounts[..|accounts| - 1];
      var a := accounts[|accounts| - 1];
      IndexLast(init);
      var c := Index(init);
      forall k | k in Index(accounts).byKey ensures LastWithKey(accounts, k, Index(accounts).byKey[k]) {
        if k == a.key {
          assert accounts[|accounts| - 1] == a;
        } else {
          LastStays(init, a, k, c.byKey[k]);
          assert init + [a] == accounts;
        }
      }
    }
  }

  /** Appending an account with another key keeps the last account with `k`. */
  lemma LastStays(init: seq<AccountConfig>, a: AccountConfig, k: Scalar, b: AccountConfig)
    requires LastWithKey(init, k, b) && a.key != k
    ensures LastWithKey(init + [a], k, b)
  {
    var s := init + [a];
    var i :| 0 <= i < |init| && init[i] == b && b.key == k && forall j :: i < j < |init| ==> init[j].key != k;
    assert s[i] == b;
    forall j | i < j < |s| ensures s[j].key != k {
      if j < |init| { assert s[j] == init[j]; }
    }
  }

  /**
   * The index holds exactly the keys of the accounts, each key once, and
   * under each key the last account that has it.
   */
  lemma IndexHolds(accounts: seq<AccountConfig>)
    ensures WellFormed(Index(accounts))
    ensures forall k :: k in Index(accounts).byKey <==> exists i :: 0 <= i < |accounts| && accounts[i].key == k
    ensures forall k :: k in Index(accounts).byKey ==> LastWithKey(accounts, k, Index(accounts).byKey[k])
  {
    IndexWellFormed(accounts);
    IndexKeys(accounts);
    IndexLast(accounts);
  }

  /** The `accounts` property: the dict's values in key order. */
  function Accounts(c: AppConfig): (r: seq<AccountConfig>)
    requires WellFormed(c)
    ensures |r| == |c.order| == |c.byKey|
    ensures forall i :: 0 <= i < |r| ==> r[i] == c.byKey[c.order[i]] && r[i].key == c.order[i]
  {
    OrderCoversKeys(c);
    seq(|c.order|, i requires 0 <= i < |c.order| => c.byKey[c.order[i]])
  }

  /** A list of distinct keys that covers the dict is as long as the dict. */
  lemma OrderCoversKeys(c: AppConfig)
    requires WellFormed(c)
    ensures |c.order| == |c.byKey|
  {
    DistinctCard(c.order);
    assert (set i | 0 <= i < |c.order| :: c.order[i]) == c.byKey.Keys;
  }

  lemma {:induction false} DistinctCard(s: seq<Scalar>)
    requires forall i, j :: 0 <= i < j < |s| ==> s[i] != s[j]
    ensures |set i | 0 <= i < |s| :: s[i]| == |s|
  {
    if s != [] {
      var init := s[..|s| - 1];
      DistinctCard(init);
      assert (set i | 0 <= i < |s| :: s[i]) == (set i | 0 <= i < |init| :: init[i]) + {s[|s| - 1]};
      assert s[|s| - 1] !in (set i | 0 <= i < |init| :: init[i]);
    }
  }

  /** `get`: the account under the key, else `KeyError`. */
  function Get(c: AppConfig, key: string): (r: Result<AccountConfig>)
    ensures r.Ok? <==> Text(key) in c.byKey
    ensures r.Ok? ==> r.value == c.byKey[Text(key)]
    ensures r.Err? ==> r.error == KeyError("No account configured with key '" + key + "'")
  {
    if Text(key) in c.byKey then Ok(c.byKey[Text(key)])
    else Err(KeyError("No account configured with key '" + key + "'"))
  }

  // ---------------------------------------------------------------------
  // load_config

  /** The first of the keys an entry must have, in the order they are read, that it lacks. */
  function MissingKey(f: map<string, Scalar>): (r: Option<string>)
    ensures r.None? <==> "key" in f && "name" in f && "account_id" in f && "region" in f && "role_arn" in f
    ensures r.Some? ==> r.value !in f && r.value in {"key", "name", "account_id", "region", "role_arn"}
  {
    if "key" !in f then Some("key")
    else if "name" !in f then Some("name")
    else if "account_id" !in f then Some("account_id")
    else if "region" !in f then Some("region")
    else if "role_arn" !in f then Some("role_arn")
    else None
  }

  /** One account entry read into an account, or the `ValueError` it raises. */
  function ParseEntry(e: Entry): (r: Result<AccountConfig>)
    ensures r.Err? ==> r.error.ValueError?
    ensures r.Ok? <==> e.Dict? && MissingKey(e.fields).None?
    ensures e.Dict? && r.Err? ==>
              r.error.reason == "Missing required key in account entry: '" + MissingKey(e.fields).value + "'"
    ensures r.Ok? ==>
              var f := e.fields;
              r.value.key == f["key"] && r.value.name == f["name"] && r.value.accountId == StrOf(f["account_id"])
              && r.value.region == f["region"] && r.value.roleArn == f["role_arn"]
              && r.value.backupArn == (if "backup_state_machine_arn" in f then f["backup_state_machine_arn"] else Null)
              && r.value.restoreArn == (if "restore_state_machine_arn" in f then f["restore_state_machine_arn"] else Null)
              && r.value.defaultGeneration == (if "default_generation" in f then f["default_generation"] else DefaultGeneration)
  {
    if e.NotDict? then Err(ValueError("Each account entry must be a mapping"))
    else
      var f := e.fields;
      var missing := MissingKey(f);
      if missing.Some? then Err(ValueError("Missing required key in account entry: '" + missing.value + "'"))
      else
        Ok(AccountConfig(f["key"], f["name"], StrOf(f["account_id"]), f["region"], f["role_arn"],
                         if "backup_state_machine_arn" in f then f["backup_state_machine_arn"] else Null,
                         if "restore_state_machine_arn" in f then f["restore_state_machine_arn"] else Null,
                         if "default_generation" in f then f["default_generation"] else DefaultGeneration))
  }

  /** The entries read in order; the first bad entry decides the error. */
  function ParseEntries(entries: seq<Entry>): (r: Result<seq<AccountConfig>>)
    ensures r.Ok? ==> |r.value| == |entries|
  {
    ReadAll(entries, ParseEntry)
  }

  /** Every item read in order, stopping at the first failure. */
  function ReadAll<T, U>(items: seq<T>, read: T -> Result<U>): (r: Result<seq<U>>)
    ensures r.Ok? ==> |r.value| == |items|
  {
    if items == [] then Ok([])
    else
      var rest := ReadAll(items[..|items| - 1], read);
      var last := read(items[|items| - 1]);
      if rest.Err? then rest
      else if last.Err? then Err(last.error)
      else Ok(rest.value + [last.value])
  }

  /** The accounts read are those of the entries, and exist only when every entry reads. */
  lemma ParseEntriesAll(entries: seq<Entry>)
    ensures ParseEntries(entries).Ok? <==> forall i :: 0 <= i < |entries| ==> ParseEntry(entries[i]).Ok?
    ensures ParseEntries(entries).Ok? ==>
              forall i :: 0 <= i < |entries| ==> ParseEntries(entries).value[i] == ParseEntry(entries[i]).value
    ensures ParseEntries(entries).Err? ==>
              exists i :: 0 <= i < |entries| && ParseEntry(entries[i]).Err?
                          && ParseEntries(entries).error == ParseEntry(entries[i]).error
                          && forall j :: 0 <= j < i ==> ParseEntry(entries[j]).Ok?
  {
    ReadAllValues(entries, ParseEntry);
    ReadAllFirstError(entries, ParseEntry);
  }

  /** A reading of all items succeeds exactly when each item reads, and then holds each item's value. */
  lemma {:induction false} ReadAllValues<T, U>(items: seq<T>, read: T -> Result<U>)
    ensures ReadAll(items, read).Ok? <==> forall i :: 0 <= i < |items| ==> read(items[i]).Ok?
    ensures ReadAll(items, read).Ok? ==>
              forall i :: 0 <= i < |items| ==> ReadAll(items, read).value[i] == read(items[i]).value
  {
    if items != [] {
      var n := |items| - 1;
      var init := items[..n];
      ReadAllValues(init, read);
      assert forall i :: 0 <= i < n ==> init[i] == items[i];
    }
  }

  /** A failed reading reports the error of the first item that does not read. */
  lemma {:induction false} ReadAllFirstError<T, U>(items: seq<T>, read: T -> Result<U>)
    ensures ReadAll(items, read).Err? ==>
              exists i :: 0 <= i < |items| && read(items[i]).Err?
                          && ReadAll(items, read).error == read(items[i]).error
                          && forall j :: 0 <= j < i ==> read(items[j]).Ok?
  {
    if items != [] {
      var n := |items| - 1;
      var init := items[..n];
      ReadAllFirstError(init, read);
      ReadAllValues(init, read);
      assert forall j :: 0 <= j < n ==> init[j] == items[j];
    }
  }

  const NotAList := ValueError("Configuration must contain a list under 'accounts'")
  const NoAccounts := ValueError("No accounts defined in configuration")

  /** What `load_config` gives for an existing file holding the document. */
  function Loaded(doc: Document): Result<AppConfig>
  {
    match doc
    case Other => Err(AttributeError("object has no attribute 'get'"))
    case Falsy => Err(NotAList)
    case Root(keys) =>
      if "accounts" !in keys || !keys["accounts"].Entries? then Err(NotAList)
      else
        var accounts := ParseEntries(keys["accounts"].items);
        if accounts.Err? then Err(accounts.error)
        else if accounts.value == [] then Err(NoAccounts)
        else Ok(Index(accounts.value))
  }

  /**
   * A loaded configuration is well formed and not empty; its keys are
   * exactly the keys of the entries, each holding the last entry with it.
   * Every failure but a non-mapping document is a `ValueError`.
   */
  lemma LoadedConfig(doc: Document)
    ensures Loaded(doc).Err? && !doc.Other? ==> Loaded(doc).error.ValueError?
    ensures Loaded(doc).Ok? ==>
              var accounts := ParseEntries(doc.keys["accounts"].items).value;
              WellFormed(Loaded(doc).value) && |Loaded(doc).value.byKey| >= 1
              && (forall k :: k in Loaded(doc).value.byKey <==> exists i :: 0 <= i < |accounts| && accounts[i].key == k)
              && forall k :: k in Loaded(doc).value.byKey ==> LastWithKey(accounts, k, Loaded(doc).value.byKey[k])
  {
    if doc.Root? && "accounts" in doc.keys && doc.keys["accounts"].Entries? {
      ParseEntriesAll(doc.keys["accounts"].items);
    }
    if Loaded(doc).Ok? {
      var accounts := ParseEntries(doc.keys["accounts"].items).value;
      IndexHolds(accounts);
      assert accounts[0].key in Loaded(doc).value.byKey;
    }
  }

  /**
   * `load_config`: a missing file raises `FileNotFoundError`; otherwise
   * the entries are read one by one into a list, the first bad one raising,
   * and an empty list is refused.
   */
  method LoadConfig(exists_: bool, doc: Document) returns (r: Result<AppConfig>)
    ensures !exists_ ==> r.Err? && r.error.FileNotFoundError?
    ensures exists_ ==> r == Loaded(doc)
  {
    if !exists_ {
      return Err(FileNotFoundError("Configuration file not found"));
    }
    if doc.Other? {
      return Err(AttributeError("object has no attribute 'get'"));
    }
    if doc.Falsy? || "accounts" !in doc.keys || !doc.keys["accounts"].Entries? {
      return Err(NotAList);
    }
    var entries := doc.keys["accounts"].items;
    var accounts: seq<AccountConfig> := [];
    var i := 0;
    while i < |entries|
      invariant 0 <= i <= |entries|
      invariant ParseEntries(entries[..i]) == Ok(accounts)
    {
      assert entries[..i + 1][..i] == entries[..i];
      var account := ParseEntry(entries[i]);
      if account.Err? {
        PrefixErrorStays(entries, i + 1);
        return Err(account.error);
      }
      accounts := accounts + [account.value];
      i := i + 1;
    }
    assert entries[..i] == entries;
    if accounts == [] {
      return Err(NoAccounts);
    }
    r := Ok(Index(accounts));
  }

  /** Once a prefix of the entries fails, the whole list fails with the same error. */
  lemma {:induction false} PrefixErrorStays(entries: seq<Entry>, n: nat)
    requires n <= |entries| && ParseEntries(entries[..n]).Err?
    ensures ParseEntries(entries) == ParseEntries(entries[..n])
    decreases |entries| - n
  {
    if n < |entries| {
      assert entries[..n + 1][..n] == entries[..n];
      PrefixErrorStays(entries, n + 1);
    } else {
      assert entries[..n] == entries;
    }
  }
}
