/** Validation (Validator.swift, and `validate(for:)` in Record.swift): rules
    about single columns, run one after another against a record; every
    broken rule is collected in a context, which raises them all together
    at the end. */
module Validators {
  import opened Errors
  import opened Values
  import opened Text
  import opened Engine
  import opened Statements
  import opened Results
  import opened Connections
  import opened Databases
  import opened Records

  /** `ValidationContext`: the database the rules may consult and the errors
      collected so far. */
  class ValidationContext {
    const database: Connection
    var errors: seq<Error>

    constructor (database: Connection)
      ensures this.database == database && errors == []
    {
      this.database := database;
      errors := [];
    }

    /** `add(error:)`: append, keeping the order. */
    method Add(error: Error)
      modifies this
      ensures errors == old(errors) + [error]
    {
      errors := errors + [error];
    }

    /** `finalize()`: return when nothing was collected, otherwise raise a
        ValidationError carrying every collected error, in order. */
    method Finalize() returns (r: Outcome<()>)
      ensures errors == [] ==> r == Ok(())
      ensures errors != [] ==> r == Fail(ValidationFailed(errors))
    {
      if |errors| > 0 {
        return Fail(ValidationFailed(errors));
      }
      r := Ok(());
    }
  }

  /** The configuration of a `ColumnValidate`: the column, whether it is
      required, and the table and key its value must exist in. */
  datatype Rule = Rule(name: string, isRequired: bool, foreignKey: Option<(string, string)>)

  /** The existence query of the foreign-key rule. */
  function ExistsSql(table: string, key: string): string {
    "SELECT EXISTS(SELECT 1 FROM " + Escape(table) + " WHERE " + Escape(key) + " = ? LIMIT 1) AS \"itExists\";"
  }

  /** The foreign-key lookup of `value` on an engine driven by `sqlite`
      whose database holds `applied`: a failure to prepare or bind is
      raised; a failing query or first row counts as not found; otherwise
      the row's `itExists` column decides. */
  function LookupOn(sqlite: Sqlite, applied: seq<Exec>, text: string, value: Value): Outcome<bool> {
    var prep := PrepareOutcome(sqlite, text);
    if prep.Fail? then Fail(prep.error)
    else
      var (b, bindings) := BindOutcome(prep.value.parameterNames, ByPosition([value]), sqlite);
      if b.Fail? then Fail(b.error)
      else
        var cols := ColumnsOf(prep.value.columnNames);
        if cols.Fail? then Ok(false)
        else
          var first := FirstSpec(sqlite.evaluate(applied, Exec(Trim(text, Cleanup), bindings)), cols.value, sqlite.diagnose);
          Ok(first.Ok? && BoolFor(first.value, "itExists"))
  }

  /** The answer to "does `value` exist under `key` in `table`?". */
  type Existence = (string, string, Value) -> Outcome<bool>

  /** The lookups the engine `db` answers; with no engine (a closed
      connection) every lookup raises. */
  function LookupIn(db: Engine?): Existence
    reads db
  {
    if db == null then (table: string, key: string, value: Value) => Fail(Unopened)
    else
      var sqlite := db.sqlite;
      var applied := db.applied;
      (table: string, key: string, value: Value) => LookupOn(sqlite, applied, ExistsSql(table, key), value)
  }

  /** The messages one rule collects for a column holding `value`, given the
      lookup's answer `found`. */
  function Messages(rule: Rule, value: Option<Value>, found: bool): seq<string> {
    (if rule.isRequired && value.None? then ["is required"] else [])
    + (if value.Some? && rule.foreignKey.Some? && !found then ["does not exist in " + rule.foreignKey.value.0] else [])
  }

  /** A rule collects at most one message: "is required" only for an absent
      column (a stored null is present), the existence message only for a
      present one whose lookup failed. */
  lemma MessagesAtMostOne(rule: Rule, value: Option<Value>, found: bool)
    ensures var m := Messages(rule, value, found);
      && |m| <= 1
      && ("is required" in m <==> rule.isRequired && value.None?)
      && (value == Some(Null) ==> "is required" !in m)
      && (rule.foreignKey.Some? ==>
            ("does not exist in " + rule.foreignKey.value.0 in m <==> value.Some? && !found))
  {
    var m := Messages(rule, value, found);
    if rule.foreignKey.Some? {
      var t := "does not exist in " + rule.foreignKey.value.0;
      assert t[0] == 'd' && "is required"[0] == 'i';
      assert t != "is required";
    }
  }

  /** What one `ColumnValidate.validate` call adds to the context, or the
      error it raises, when `lookup` answers its existence query. */
  function CheckSpec(rule: Rule, storage: Row, lookup: Existence): Outcome<seq<Error>> {
    var value := if rule.name in storage then Some(storage[rule.name]) else None;
    var found :=
      if value.Some? && rule.foreignKey.Some? then lookup(rule.foreignKey.value.0, rule.foreignKey.value.1, value.value)
      else Ok(true);
    if found.Fail? then Fail(found.error)
    else
      var m := Messages(rule, value, found.value);
      Ok(if m == [] then [] else [ColumnInvalid(rule.name, m)])
  }

  /** One validate call adds at most one error, for its own column, and only
      when it collected a message. */
  lemma CheckAddsAtMostOne(rule: Rule, storage: Row, lookup: Existence)
    requires CheckSpec(rule, storage, lookup).Ok?
    ensures var added := CheckSpec(rule, storage, lookup).value;
      && |added| <= 1
      && forall e <- added :: e.ColumnInvalid? && e.field == rule.name && e.messages != []
  {
  }

  /** A column a required rule finds missing is reported, whatever the
      engine holds. */
  lemma MissingRequiredIsReported(rule: Rule, storage: Row, lookup: Existence)
    requires rule.isRequired && rule.name !in storage
    ensures CheckSpec(rule, storage, lookup) == Ok([ColumnInvalid(rule.name, ["is required"])])
  {
    var m := Messages(rule, None, true);
    assert m == ["is required"] + [];
    assert m == ["is required"];
    assert CheckSpec(rule, storage, lookup) == Ok([ColumnInvalid(rule.name, m)]);
  }

  /** `ColumnValidate`. */
  class ColumnValidate {
    const name: string
    var isRequired: bool
    var foreignKey: Option<(string, string)>

    /** A new rule requires nothing. */
    constructor (name: string)
      ensures this.name == name && !isRequired && foreignKey == None
    {
      this.name := name;
      isRequired := false;
      foreignKey := None;
    }

    function AsRule(): Rule
      reads this
    {
      Rule(name, isRequired, foreignKey)
    }

    /** `presence(required:)`, true by default; the same validator comes
        back. */
    method Presence(required: bool := true) returns (self: ColumnValidate)
      modifies this
      ensures self == this && AsRule() == old(AsRule()).(isRequired := required)
    {
      isRequired := required;
      self := this;
    }

    /** `foreignKey(for:foreignKey:)`, keyed by "rowid" by default; the same
        validator comes back. */
    method ForeignKey(tableName: string, key: string := "rowid") returns (self: ColumnValidate)
      modifies this
      ensures self == this && AsRule() == old(AsRule()).(foreignKey := Some((tableName, key)))
    {
      foreignKey := Some((tableName, key));
      self := this;
    }

    /** `validate(record:withContext:)`. */
    method Validate(record: Record, ctx: ValidationContext) returns (r: Outcome<()>)
      modifies ctx
      ensures var spec := CheckSpec(AsRule(), record.storage, LookupIn(ctx.database.handle));
        && (spec.Fail? ==> r == Fail(spec.error) && ctx.errors == old(ctx.errors))
        && (spec.Ok? ==> r == Ok(()) && ctx.errors == old(ctx.errors) + spec.value)
    {
      var value := record.ValueFor(name);
      var messages: seq<string> := [];
      if isRequired && value == None {
        messages := messages + ["is required"];
      }
      var found := true;
      if value.Some? && foreignKey.Some? {
        var (table, key) := foreignKey.value;
        var lookup := Lookup(ctx.database, table, key, value.value);
        if lookup.Fail? {
          return Fail(lookup.error);
        }
        found := lookup.value;
        if !found {
          messages := messages + ["does not exist in " + table];
        }
      }
      assert messages == Messages(AsRule(), value, found);
      if |messages| > 0 {
        ctx.Add(ColumnInvalid(name, messages));
      }
      r := Ok(());
    }
  }

  /** The existence query of a foreign-key rule, run on the connection. */
  method Lookup(conn: Connection, table: string, key: string, value: Value) returns (r: Outcome<bool>)
    ensures conn.handle == null ==> r == Fail(Unopened)
    ensures conn.handle != null ==> r == LookupOn(conn.handle.sqlite, conn.handle.applied, ExistsSql(table, key), value)
  {
    var prepared := conn.Prepare(ExistsSql(table, key));
    if prepared.Fail? {
      return Fail(prepared.error);
    }
    var stmt := prepared.value;
    var bound := stmt.Bind([value]);
    if bound.Fail? {
      return Fail(bound.error);
    }
    var result := conn.Query(stmt);
    if result.Fail? {
      return Ok(false);
    }
    var row := result.value.First();
    if row.Fail? {
      return Ok(false);
    }
    r := Ok(BoolFor(row.value, "itExists"));
  }

  /** The rules every record type starts from (`_validators`): both
      timestamps must be present. */
  const BaseRules := [Rule("createdAt", true, None), Rule("updatedAt", true, None)]

  /** The outcome of each rule in turn. */
  function Checks(rules: seq<Rule>, storage: Row, lookup: Existence): (r: seq<Outcome<seq<Error>>>)
    ensures |r| == |rules|
  {
    if rules == [] then []
    else Checks(rules[..|rules| - 1], storage, lookup) + [CheckSpec(rules[|rules| - 1], storage, lookup)]
  }

  /** Outcome `i` is that of rule `i`. */
  lemma {:induction false} ChecksAt(rules: seq<Rule>, storage: Row, lookup: Existence, i: int)
    requires 0 <= i < |rules|
    ensures Checks(rules, storage, lookup)[i] == CheckSpec(rules[i], storage, lookup)
  {
    var n := |rules| - 1;
    if i < n {
      ChecksAt(rules[..n], storage, lookup, i);
    }
  }

  /** Folding rule outcomes in order: the first raised error ends the run;
      otherwise the errors each rule added, in rule order. */
  function Collect(outs: seq<Outcome<seq<Error>>>): Outcome<seq<Error>> {
    if outs == [] then Ok([])
    else
      var before := Collect(outs[..|outs| - 1]);
      if before.Fail? then before
      else
        var last := outs[|outs| - 1];
        if last.Fail? then Fail(last.error) else Ok(before.value + last.value)
  }

  /** One more outcome at the end. */
  lemma CollectSnoc(outs: seq<Outcome<seq<Error>>>, last: Outcome<seq<Error>>)
    ensures var before := Collect(outs);
      Collect(outs + [last]) ==
        (if before.Fail? then before else if last.Fail? then Fail(last.error) else Ok(before.value + last.value))
  {
    assert (outs + [last])[..|outs|] == outs;
  }

  /** Folding two lists one after the other is folding their concatenation:
      the errors of the first come first. */
  lemma {:induction false} CollectAppend(a: seq<Outcome<seq<Error>>>, b: seq<Outcome<seq<Error>>>)
    ensures var A := Collect(a);
      var B := Collect(b);
      Collect(a + b) == (if A.Fail? then A else if B.Fail? then B else Ok(A.value + B.value))
    decreases |b|
  {
    if b == [] {
      assert a + b == a;
      if Collect(a).Ok? {
        assert Collect(a).value + [] == Collect(a).value;
      }
    } else {
      var b' := b[..|b| - 1];
      var last := b[|b| - 1];
      assert b == b' + [last];
      assert a + b == (a + b') + [last];
      CollectAppend(a, b');
      CollectSnoc(a + b', last);
      CollectSnoc(b', last);
      var A := Collect(a);
      var B' := Collect(b');
      if A.Ok? && B'.Ok? && last.Ok? {
        assert (A.value + B'.value) + last.value == A.value + (B'.value + last.value);
      }
    }
  }

  /** The fold raises exactly when some outcome is an error, and then it is
      the first one's; otherwise every error it returns was added by one of
      the outcomes. */
  lemma {:induction false} CollectOutcome(outs: seq<Outcome<seq<Error>>>)
    ensures var c := Collect(outs);
      && (c.Fail? <==> exists i :: 0 <= i < |outs| && outs[i].Fail?)
      && (c.Fail? ==> exists i :: (0 <= i < |outs| && outs[i].Fail? && c.error == outs[i].error
            && forall j :: 0 <= j < i ==> outs[j].Ok?))
      && (c.Ok? ==> forall e <- c.value :: exists i :: 0 <= i < |outs| && outs[i].Ok? && e in outs[i].value)
  {
    if outs != [] {
      var n := |outs| - 1;
      var init := outs[..n];
      assert outs == init + [outs[n]];
      CollectOutcome(init);
      CollectSnoc(init, outs[n]);
      assert forall i :: 0 <= i < n ==> init[i] == outs[i];
    }
  }

  /** When every outcome adds at most one error, so does the fold per
      outcome. */
  lemma {:induction false} CollectSize(outs: seq<Outcome<seq<Error>>>)
    requires forall i :: 0 <= i < |outs| && outs[i].Ok? ==> |outs[i].value| <= 1
    ensures Collect(outs).Ok? ==> |Collect(outs).value| <= |outs|
  {
    if outs != [] {
      var n := |outs| - 1;
      var init := outs[..n];
      assert outs == init + [outs[n]];
      CollectSize(init);
      CollectSnoc(init, outs[n]);
    }
  }

  /** Validation runs the rules in order: a prefix that raises decides the
      whole run, and a run that passes collected the prefix's errors first. */
  lemma {:induction false} ChecksPrefix(rules: seq<Rule>, k: nat, storage: Row, lookup: Existence)
    requires k <= |rules|
    ensures var pre := Collect(Checks(rules[..k], storage, lookup));
      var all := Collect(Checks(rules, storage, lookup));
      && (pre.Fail? ==> all == pre)
      && (all.Ok? ==> pre.Ok? && pre.value <= all.value)
    decreases |rules| - k
  {
    if k == |rules| {
      assert rules[..k] == rules;
    } else {
      var n := |rules| - 1;
      var init := Checks(rules[..n], storage, lookup);
      var c := CheckSpec(rules[n], storage, lookup);
      assert rules[..n][..k] == rules[..k];
      ChecksPrefix(rules[..n], k, storage, lookup);
      assert Checks(rules, storage, lookup) == init + [c];
      CollectSnoc(init, c);
      var all := Collect(init + [c]);
      if all.Ok? {
        var pre := Collect(Checks(rules[..k], storage, lookup));
        assert pre.value <= Collect(init).value <= all.value;
      }
    }
  }

  /** The outcomes of one more rule. */
  lemma ChecksStep(rules: seq<Rule>, i: nat, storage: Row, lookup: Existence)
    requires i < |rules|
    ensures Checks(rules[..i + 1], storage, lookup) == Checks(rules[..i], storage, lookup) + [CheckSpec(rules[i], storage, lookup)]
  {
    assert rules[..i + 1][..i] == rules[..i];
  }

  /** Running `rules` in order against `storage`. */
  function ValidateAllSpec(rules: seq<Rule>, storage: Row, lookup: Existence): Outcome<seq<Error>>
  {
    Collect(Checks(rules, storage, lookup))
  }

  /** `validate(for:)`: every rule runs, then the context is finalized. */
  function RecordValidateSpec(rules: seq<Rule>, storage: Row, lookup: Existence): Outcome<()>
  {
    var all := ValidateAllSpec(rules, storage, lookup);
    if all.Fail? then Fail(all.error)
    else if all.value == [] then Ok(())
    else Fail(ValidationFailed(all.value))
  }

  /** Validation raises exactly when some rule raises, and then with the
      first such rule's error; otherwise every collected error is a column
      error of one of the rules, at most one per rule. */
  lemma ValidateAllOutcome(rules: seq<Rule>, storage: Row, lookup: Existence)
    ensures var all := ValidateAllSpec(rules, storage, lookup);
      && (all.Fail? <==> exists i :: 0 <= i < |rules| && CheckSpec(rules[i], storage, lookup).Fail?)
      && (all.Fail? ==> exists i :: (0 <= i < |rules| && CheckSpec(rules[i], storage, lookup).Fail?
            && all.error == CheckSpec(rules[i], storage, lookup).error
            && forall j :: 0 <= j < i ==> CheckSpec(rules[j], storage, lookup).Ok?))
      && (all.Ok? ==> (|all.value| <= |rules|
            && forall e <- all.value :: e.ColumnInvalid? && e.messages != [] && exists r <- rules :: e.field == r.name))
  {
    var outs := Checks(rules, storage, lookup);
    CollectOutcome(outs);
    forall i | 0 <= i < |outs|
      ensures outs[i] == CheckSpec(rules[i], storage, lookup)
    {
      ChecksAt(rules, storage, lookup, i);
    }
    forall i | 0 <= i < |outs| && outs[i].Ok?
      ensures |outs[i].value| <= 1
      ensures forall e <- outs[i].value :: e.ColumnInvalid? && e.messages != [] && e.field == rules[i].name
    {
      CheckAddsAtMostOne(rules[i], storage, lookup);
    }
    CollectSize(outs);
    if Collect(outs).Ok? {
      forall e <- Collect(outs).value
        ensures e.ColumnInvalid? && e.messages != [] && exists r <- rules :: e.field == r.name
      {
        var i :| 0 <= i < |outs| && outs[i].Ok? && e in outs[i].value;
        assert rules[i] in rules;
      }
    }
  }

  /** What a presence rule on `name` adds for `storage`. */
  function Required(name: string, storage: Row): seq<Error> {
    if name in storage then [] else [ColumnInvalid(name, ["is required"])]
  }

  /** A presence rule without a foreign key never raises and adds exactly
      `Required`. */
  lemma PresenceCheck(rule: Rule, storage: Row, lookup: Existence)
    requires rule.isRequired && rule.foreignKey == None
    ensures CheckSpec(rule, storage, lookup) == Ok(Required(rule.name, storage))
  {
    if rule.name in storage {
      assert Messages(rule, Some(storage[rule.name]), true) == [] + [];
    } else {
      MissingRequiredIsReported(rule, storage, lookup);
    }
  }

  /** The outcomes of a list of two rules. */
  lemma ChecksPair(a: Rule, b: Rule, storage: Row, lookup: Existence)
    ensures Checks([a, b], storage, lookup) == [CheckSpec(a, storage, lookup), CheckSpec(b, storage, lookup)]
  {
    assert [a, b][..1] == [a] && [a][..0] == [];
  }

  /** The base rules never raise; they report each missing timestamp,
      `createdAt` first. */
  lemma {:induction false} BaseRulesReport(storage: Row, lookup: Existence)
    ensures ValidateAllSpec(BaseRules, storage, lookup) ==
      Ok(Required("createdAt", storage) + Required("updatedAt", storage))
  {
    var c0 := CheckSpec(BaseRules[0], storage, lookup);
    var c1 := CheckSpec(BaseRules[1], storage, lookup);
    PresenceCheck(BaseRules[0], storage, lookup);
    PresenceCheck(BaseRules[1], storage, lookup);
    ChecksPair(BaseRules[0], BaseRules[1], storage, lookup);
    assert BaseRules == [BaseRules[0], BaseRules[1]];
    CollectSnoc([], c0);
    assert [] + [c0] == [c0];
    CollectSnoc([c0], c1);
    assert [] + c0.value == c0.value;
  }

  /** A record carrying both timestamps passes the base rules. */
  lemma StampedRecordPasses(storage: Row, lookup: Existence)
    requires "createdAt" in storage && "updatedAt" in storage
    ensures RecordValidateSpec(BaseRules, storage, lookup) == Ok(())
  {
    BaseRulesReport(storage, lookup);
  }

  /** A record without `createdAt` is refused: unless a later rule raises on
      its own, the refusal lists "createdAt is required" first. */
  lemma MissingCreatedAtIsRefused(extra: seq<Rule>, storage: Row, lookup: Existence)
    requires "createdAt" !in storage
    ensures RecordValidateSpec(BaseRules + extra, storage, lookup).Fail?
    ensures ValidateAllSpec(BaseRules + extra, storage, lookup).Ok? ==>
      exists errs :: RecordValidateSpec(BaseRules + extra, storage, lookup) == Fail(ValidationFailed(errs))
        && |errs| > 0 && errs[0] == ColumnInvalid("createdAt", ["is required"])
  {
    var rules := BaseRules + extra;
    assert rules[..2] == BaseRules;
    ChecksPrefix(rules, 2, storage, lookup);
    BaseRulesReport(storage, lookup);
    var all := ValidateAllSpec(rules, storage, lookup);
    if all.Ok? {
      var base := Required("createdAt", storage) + Required("updatedAt", storage);
      assert base <= all.value && base[0] == ColumnInvalid("createdAt", ["is required"]);
      assert RecordValidateSpec(rules, storage, lookup) == Fail(ValidationFailed(all.value));
    }
  }

  /** `_validators()`: a fresh `ColumnValidate` for each rule, the base rules
      first and then the record type's own, in order. */
  method ValidatorsFor(extra: seq<Rule>) returns (vs: seq<ColumnValidate>)
    ensures |vs| == |BaseRules + extra|
    ensures forall i :: 0 <= i < |vs| ==> fresh(vs[i]) && vs[i].AsRule() == (BaseRules + extra)[i]
  {
    var rules := BaseRules + extra;
    vs := [];
    var i := 0;
    while i < |rules|
      invariant 0 <= i <= |rules| && |vs| == i
      invariant forall k :: 0 <= k < i ==> fresh(vs[k]) && vs[k].AsRule() == rules[k]
    {
      var v := new ColumnValidate(rules[i].name);
      v := v.Presence(rules[i].isRequired);
      if rules[i].foreignKey.Some? {
        v := v.ForeignKey(rules[i].foreignKey.value.0, rules[i].foreignKey.value.1);
      }
      vs := vs + [v];
      i := i + 1;
    }
  }

  /** One pass of the loop of `validate(for:)`: rule `i` runs after the
      rules before it have all passed. */
  method ValidateNext(v: ColumnValidate, record: Record, ctx: ValidationContext, ghost rules: seq<Rule>, ghost i: nat,
                      ghost storage: Row, ghost lookup: Existence) returns (res: Outcome<()>)
    requires i < |rules| && v.AsRule() == rules[i]
    requires storage == record.storage && lookup == LookupIn(ctx.database.handle)
    requires Collect(Checks(rules[..i], storage, lookup)) == Ok(ctx.errors)
    modifies ctx
    ensures var after := Collect(Checks(rules[..i + 1], storage, lookup));
      && (after.Fail? ==> res == Fail(after.error))
      && (after.Ok? ==> res == Ok(()) && ctx.errors == after.value)
  {
    ghost var c := CheckSpec(rules[i], storage, lookup);
    res := v.Validate(record, ctx);
    ChecksStep(rules, i, storage, lookup);
    CollectSnoc(Checks(rules[..i], storage, lookup), c);
  }

  /** The loop of `validate(for:)`: the validators run in order on one
      context, and the first that raises ends the run. */
  method RunValidators(validators: seq<ColumnValidate>, record: Record, ctx: ValidationContext,
                       ghost rules: seq<Rule>, ghost lookup: Existence) returns (r: Outcome<()>)
    requires |validators| == |rules|
    requires forall i :: 0 <= i < |rules| ==> validators[i].AsRule() == rules[i]
    requires ctx.errors == [] && lookup == LookupIn(ctx.database.handle)
    modifies ctx
    ensures var all := ValidateAllSpec(rules, record.storage, lookup);
      && (all.Fail? ==> r == Fail(all.error))
      && (all.Ok? ==> r == Ok(()) && ctx.errors == all.value)
  {
    ghost var storage := record.storage;
    var i := 0;
    while i < |validators|
      invariant 0 <= i <= |validators|
      invariant Collect(Checks(rules[..i], storage, lookup)) == Ok(ctx.errors)
    {
      var res := ValidateNext(validators[i], record, ctx, rules, i, storage, lookup);
      if res.Fail? {
        ChecksPrefix(rules, i + 1, storage, lookup);
        return Fail(res.error);
      }
      i := i + 1;
    }
    assert rules[..i] == rules;
    r := Ok(());
  }

  /** `validate(for:)` on a record whose type adds the rules `extra`. */
  method ValidateRecord(record: Record, db: Connection, extra: seq<Rule>) returns (r: Outcome<()>)
    ensures r == RecordValidateSpec(BaseRules + extra, record.storage, LookupIn(db.handle))
  {
    var ctx := new ValidationContext(db);
    var validators := ValidatorsFor(extra);
    r := RunValidators(validators, record, ctx, BaseRules + extra, LookupIn(db.handle));
    if r.Ok? {
      r := ctx.Finalize();
    }
  }
}
