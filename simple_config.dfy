/**
 * The configuration of the simple backup app: the managed AWS accounts and
 * the default restore strategy, validated as the pydantic models do it.
 * Pydantic reports every problem as one `ValidationError`, which
 * `load_config` turns into a `ValueError`; the model keeps that one error
 * kind and does not build pydantic's message text.
 */
module SimpleConfig {
  import opened Base
  import opened Strings
  import opened Documents

  datatype Strategy = Copy | Download

  datatype AccountConfig = AccountConfig(
    id: string, name: string, roleArn: string, region: string,
    backupBucket: string, backupPrefix: string,
    restoreBucket: Option<string>, restorePrefix: string)

  datatype AppConfig = AppConfig(defaultStrategy: Strategy, accounts: seq<AccountConfig>)

  /** `max_length=10` on the account list. */
  const MaxAccounts := 10

  const Invalid := ValueError("Error de validación en configuración")

  // ---------------------------------------------------------------------
  // AccountConfig

  /** `normalize_prefix`: "" stays "", anything else ends in exactly one added "/" when it lacked one. */
  function NormalizePrefix(value: string): (r: string)
    ensures value == "" ==> r == ""
    ensures value != "" ==> EndsWith(r, "/") && StartsWith(r, value)
    ensures EndsWith(value, "/") ==> r == value
    ensures value != "" && !EndsWith(value, "/") ==> r == value + "/"
  {
    if value == "" then ""
    else if EndsWith(value, "/") then value
    else value + "/"
  }

  /** Normalizing twice is normalizing once. */
  lemma NormalizeIdempotent(value: string)
    ensures NormalizePrefix(NormalizePrefix(value)) == NormalizePrefix(value)
  {
  }

  /** A required `str` field: present and a string. */
  function RequiredText(fields: map<string, Scalar>, name: string): (r: Option<string>)
    ensures r.Some? <==> name in fields && fields[name].Text?
    ensures r.Some? ==> r.value == fields[name].s
  {
    if name in fields && fields[name].Text? then Some(fields[name].s) else None
  }

  /** A prefix field with default "": a string, normalized. */
  function PrefixField(fields: map<string, Scalar>, name: string): (r: Result<string>)
    ensures r.Ok? <==> name !in fields || fields[name].Text?
    ensures r.Ok? ==> r.value == if name in fields then NormalizePrefix(fields[name].s) else ""
  {
    if name !in fields then Ok("")
    else if fields[name].Text? then Ok(NormalizePrefix(fields[name].s))
    else Err(Invalid)
  }

  /** `restore_bucket: Optional[str] = None`. */
  function OptionalText(fields: map<string, Scalar>, name: string): (r: Result<Option<string>>)
    ensures r.Ok? <==> name !in fields || fields[name].Null? || fields[name].Text?
    ensures r.Ok? ==> (r.value.Some? <==> name in fields && fields[name].Text?)
    ensures r.Ok? && r.value.Some? ==> r.value.value == fields[name].s
  {
    if name !in fields || fields[name].Null? then Ok(None)
    else if fields[name].Text? then Ok(Some(fields[name].s))
    else Err(Invalid)
  }

  /** The validation of one account entry. */
  function ValidateAccount(e: Entry): (r: Result<AccountConfig>)
  {
    if e.NotDict? then Err(Invalid)
    else
      var f := e.fields;
      var id := RequiredText(f, "id");
      var name := RequiredText(f, "name");
      var role := RequiredText(f, "role_arn");
      var region := RequiredText(f, "region");
      var bucket := RequiredText(f, "backup_bucket");
      var backupPrefix := PrefixField(f, "backup_prefix");
      var restoreBucket := OptionalText(f, "restore_bucket");
      var restorePrefix := PrefixField(f, "restore_prefix");
      if id.None? || name.None? || role.None? || region.None? || bucket.None?
         || backupPrefix.Err? || restoreBucket.Err? || restorePrefix.Err?
      then Err(Invalid)
      else Ok(AccountConfig(id.value, name.value, role.value, region.value, bucket.value,
                            backupPrefix.value, restoreBucket.value, restorePrefix.value))
  }

  /** The required fields, each a string. */
  predicate HasRequired(f: map<string, Scalar>)
  {
    RequiredText(f, "id").Some? && RequiredText(f, "name").Some? && RequiredText(f, "role_arn").Some?
    && RequiredText(f, "region").Some? && RequiredText(f, "backup_bucket").Some?
  }

  /**
   * An account is accepted only as a mapping with every required field a
   * string; it then carries those strings, both prefixes are "" or end in
   * "/", and the restore bucket is absent only when the entry gives none.
   */
  lemma AccountAccepted(e: Entry)
    ensures ValidateAccount(e).Ok? ==> e.Dict? && HasRequired(e.fields)
    ensures ValidateAccount(e).Ok? ==>
              var a := ValidateAccount(e).value;
              a.id == e.fields["id"].s && a.name == e.fields["name"].s && a.roleArn == e.fields["role_arn"].s
              && a.region == e.fields["region"].s && a.backupBucket == e.fields["backup_bucket"].s
              && (a.backupPrefix == "" || EndsWith(a.backupPrefix, "/"))
              && (a.restorePrefix == "" || EndsWith(a.restorePrefix, "/"))
              && (a.restoreBucket.None? <==> "restore_bucket" !in e.fields || e.fields["restore_bucket"].Null?)
  {
  }

  /** A mapping whose required fields are strings and whose optional fields have the right type is accepted. */
  lemma AccountRejected(e: Entry)
    ensures ValidateAccount(e).Err? <==>
              e.NotDict? || !HasRequired(e.fields) || PrefixField(e.fields, "backup_prefix").Err?
              || OptionalText(e.fields, "restore_bucket").Err? || PrefixField(e.fields, "restore_prefix").Err?
  {
  }

  // ---------------------------------------------------------------------
  // AppConfig

  /** No two accounts share an id. */
  predicate DistinctIds(accounts: seq<AccountConfig>)
  {
    forall i, j :: 0 <= i < j < |accounts| ==> accounts[i].id != accounts[j].id
  }

  /** The ids of some accounts. */
  function Ids(accounts: seq<AccountConfig>): (r: set<string>)
    ensures forall i :: 0 <= i < |accounts| ==> accounts[i].id in r
    ensures forall x :: x in r ==> exists i :: 0 <= i < |accounts| && accounts[i].id == x
  {
    set i | 0 <= i < |accounts| :: accounts[i].id
  }

  /**
   * `ensure_unique_account_ids`: the accounts unchanged when the ids are
   * distinct; otherwise a `ValueError` naming the first id met a second time.
   */
  method EnsureUniqueAccountIds(accounts: seq<AccountConfig>) returns (r: Result<seq<AccountConfig>>)
    ensures r.Ok? <==> DistinctIds(accounts)
    ensures r.Ok? ==> r.value == accounts
    ensures r.Err? ==> exists j :: 0 <= j < |accounts| && DistinctIds(accounts[..j]) && accounts[j].id in Ids(accounts[..j])
                                   && r.error == ValueError("Cuenta duplicada: " + accounts[j].id)
  {
    var seen: set<string> := {};
    var i := 0;
    while i < |accounts|
      invariant 0 <= i <= |accounts|
      invariant seen == Ids(accounts[..i])
      invariant DistinctIds(accounts[..i])
    {
      if accounts[i].id in seen {
        return Err(ValueError("Cuenta duplicada: " + accounts[i].id));
      }
      assert accounts[..i + 1] == accounts[..i] + [accounts[i]];
      seen := seen + {accounts[i].id};
      i := i + 1;
    }
    assert accounts[..i] == accounts;
    r := Ok(accounts);
  }

  /** Every entry validated, the first failure wins. */
  function ValidateAll(entries: seq<Entry>): (r: Result<seq<AccountConfig>>)
    ensures r.Ok? ==> |r.value| == |entries|
  {
    if entries == [] then Ok([])
    else
      var rest := ValidateAll(entries[..|entries| - 1]);
      var last := ValidateAccount(entries[|entries| - 1]);
      if rest.Err? then rest
      else if last.Err? then Err(last.error)
      else Ok(rest.value + [last.value])
  }

  /** The accounts are those of the entries, one per entry in order, and exist only when every entry is valid. */
  lemma {:induction false} ValidateAllEntries(entries: seq<Entry>)
    ensures ValidateAll(entries).Ok? <==> forall i :: 0 <= i < |entries| ==> ValidateAccount(entries[i]).Ok?
    ensures ValidateAll(entries).Ok? ==>
              forall i :: 0 <= i < |entries| ==> ValidateAll(entries).value[i] == ValidateAccount(entries[i]).value
  {
    ValidateAllOk(entries);
    if ValidateAll(entries).Ok? {
      ValidateAllValues(entries);
    }
  }

  /** The entries are all valid exactly when validating them all succeeds. */
  lemma {:induction false} ValidateAllOk(entries: seq<Entry>)
    ensures ValidateAll(entries).Ok? <==> forall i :: 0 <= i < |entries| ==> ValidateAccount(entries[i]).Ok?
  {
    if entries != [] {
      var init := entries[..|entries| - 1];
      ValidateAllOk(init);
      if ValidateAll(init).Err? {
        var k :| 0 <= k < |init| && !ValidateAccount(init[k]).Ok?;
        assert init[k] == entries[k];
      } else {
        forall i | 0 <= i < |init|
          ensures ValidateAccount(entries[i]).Ok?
        {
          assert init[i] == entries[i];
        }
      }
    }
  }

  /** The `i`-th account is the `i`-th entry's. */
  lemma {:induction false} ValidateAllValues(entries: seq<Entry>)
    requires ValidateAll(entries).Ok?
    ensures forall i :: 0 <= i < |entries| ==>
              ValidateAccount(entries[i]).Ok? && ValidateAll(entries).value[i] == ValidateAccount(entries[i]).value
  {
    forall i | 0 <= i < |entries|
      ensures ValidateAccount(entries[i]).Ok? && ValidateAll(entries).value[i] == ValidateAccount(entries[i]).value
    {
      ValidateAllAt(entries, i);
    }
  }

  lemma {:induction false} ValidateAllAt(entries: seq<Entry>, i: nat)
    requires ValidateAll(entries).Ok? && i < |entries|
    ensures ValidateAccount(entries[i]).Ok? && ValidateAll(entries).value[i] == ValidateAccount(entries[i]).value
  {
    var init := entries[..|entries| - 1];
    var rest := ValidateAll(init);
    assert rest.Ok?;
    assert ValidateAll(entries).value == rest.value + [ValidateAccount(entries[|entries| - 1]).value];
    if i < |init| {
      ValidateAllAt(init, i);
      assert init[i] == entries[i];
    }
  }

  /** `default_restore_strategy: Literal["copy", "download"] = "copy"`. */
  function StrategyOf(keys: map<string, Node>): (r: Result<Strategy>)
    ensures "default_restore_strategy" !in keys ==> r == Ok(Copy)
    ensures r.Ok? && "default_restore_strategy" in keys ==>
              keys["default_restore_strategy"] == Leaf(Text(if r.value == Copy then "copy" else "download"))
  {
    if "default_restore_strategy" !in keys then Ok(Copy)
    else if keys["default_restore_strategy"] == Leaf(Text("copy")) then Ok(Copy)
    else if keys["default_restore_strategy"] == Leaf(Text("download")) then Ok(Download)
    else Err(Invalid)
  }

  /**
   * `AppConfig.model_validate` of the loaded document (a false value is
   * read as `{}`): the strategy, then a list of at most ten valid accounts
   * with distinct ids.
   */
  function Validated(doc: Document): Result<AppConfig>
  {
    if !doc.Root? then Err(Invalid)
    else
      var strategy := StrategyOf(doc.keys);
      if strategy.Err? || "accounts" !in doc.keys || !doc.keys["accounts"].Entries? then Err(Invalid)
      else
        var items := doc.keys["accounts"].items;
        var accounts := ValidateAll(items);
        if |items| > MaxAccounts || accounts.Err? || !DistinctIds(accounts.value) then Err(Invalid)
        else Ok(AppConfig(strategy.value, accounts.value))
  }

  /**
   * An accepted configuration has at most ten accounts with distinct ids,
   * one per entry, each prefix normalized; a document that is not a
   * mapping, lacks the account list, or has more than ten entries is refused.
   */
  lemma ValidatedConfig(doc: Document)
    ensures Validated(doc).Ok? ==> doc.Root? && "accounts" in doc.keys && doc.keys["accounts"].Entries?
    ensures Validated(doc).Ok? ==>
              var c := Validated(doc).value;
              |c.accounts| == |doc.keys["accounts"].items| <= MaxAccounts && DistinctIds(c.accounts)
              && forall i :: 0 <= i < |c.accounts| ==>
                   (c.accounts[i].backupPrefix == "" || EndsWith(c.accounts[i].backupPrefix, "/"))
                   && (c.accounts[i].restorePrefix == "" || EndsWith(c.accounts[i].restorePrefix, "/"))
    ensures (doc.Root? && "accounts" in doc.keys && doc.keys["accounts"].Entries?
             && |doc.keys["accounts"].items| > MaxAccounts) ==> Validated(doc).Err?
  {
    if Validated(doc).Ok? {
      var items := doc.keys["accounts"].items;
      ValidateAllEntries(items);
      forall i | 0 <= i < |items| ensures
        var a := ValidateAll(items).value[i];
        (a.backupPrefix == "" || EndsWith(a.backupPrefix, "/")) && (a.restorePrefix == "" || EndsWith(a.restorePrefix, "/"))
      {
        AccountAccepted(items[i]);
      }
    }
  }

  /** Two entries with one id are refused, wherever they are in the list. */
  lemma DuplicateRefused(doc: Document, i: nat, j: nat)
    requires doc.Root? && "accounts" in doc.keys && doc.keys["accounts"].Entries?
    requires i < j < |doc.keys["accounts"].items|
    requires ValidateAccount(doc.keys["accounts"].items[i]).Ok? && ValidateAccount(doc.keys["accounts"].items[j]).Ok?
    requires ValidateAccount(doc.keys["accounts"].items[i]).value.id == ValidateAccount(doc.keys["accounts"].items[j]).value.id
    ensures Validated(doc).Err?
  {
    ValidateAllEntries(doc.keys["accounts"].items);
  }

  /**
   * `load_config`: a missing file raises `FileNotFoundError`; otherwise the
   * document is validated, running the duplicate check on the accounts, and
   * any validation failure surfaces as a `ValueError`.
   */
  method LoadConfig(exists_: bool, doc: Document) returns (r: Result<AppConfig>)
    ensures !exists_ ==> r.Err? && r.error.FileNotFoundError?
    ensures exists_ ==> r == Validated(doc)
    ensures exists_ && r.Err? ==> r.error.ValueError?
  {
    if !exists_ {
      return Err(FileNotFoundError("Archivo de configuración no encontrado"));
    }
    if !doc.Root? {
      return Err(Invalid);
    }
    var strategy := StrategyOf(doc.keys);
    if strategy.Err? || "accounts" !in doc.keys || !doc.keys["accounts"].Entries? {
      return Err(Invalid);
    }
    var items := doc.keys["accounts"].items;
    var accounts := ValidateAll(items);
    if |items| > MaxAccounts || accounts.Err? {
      return Err(Invalid);
    }
    var unique := EnsureUniqueAccountIds(accounts.value);
    if unique.Err? {
      return Err(Invalid);
    }
    r := Ok(AppConfig(strategy.value, unique.value));
  }
}
