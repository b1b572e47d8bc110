/** A prepared statement (Statement.swift, with Value.bind from Value.swift and
    the single-step execution `_update` from Connection.swift). */
module Statements {
  import opened Errors
  import opened Values
  import opened Text
  import opened Engine

  /** `Statement.cleanupCharSet`: ';' together with whitespace and newlines. */
  const Cleanup: set<char> := {';'} + WhitespacesAndNewlines

  /** `Value.bind(index:stmt:db:)`: hand the value to its engine binder at the
      1-based `slot` and check the binder's status against SQLITE_OK. */
  function BindValue(v: Value, slot: int, sqlite: Sqlite): (r: Outcome<()>)
    ensures r.Ok? <==> sqlite.bindStatus(BinderFor(v, slot)) == SQLITE_OK
  {
    var status := sqlite.bindStatus(BinderFor(v, slot));
    Check(status, sqlite.diagnose(status))
  }

  /** What binding does at one slot: bind a value, or stop with an error. */
  datatype Slot = Use(v: Value) | Reject(e: Error)

  /** The effect of binding slot after slot (slot k + 1 takes plan[k]) until
      the first slot that is rejected or whose binder fails: the outcome and
      the bindings left on the statement. */
  function RunPlan(plan: seq<Slot>, sqlite: Sqlite): (Outcome<()>, map<int, Value>) {
    if plan == [] then (Ok(()), map[])
    else
      var (o, b) := RunPlan(plan[..|plan| - 1], sqlite);
      if o.Fail? then (o, b)
      else match plan[|plan| - 1]
        case Reject(e) => (Fail(e), b)
        case Use(v) =>
          var bound := BindValue(v, |plan|, sqlite);
          if bound.Fail? then (bound, b) else (Ok(()), b[|plan| := v])
  }

  /** Once a slot has failed, the slots after it are never attempted. */
  lemma {:induction false} RunPlanStops(plan: seq<Slot>, i: nat, sqlite: Sqlite)
    requires i <= |plan| && RunPlan(plan[..i], sqlite).0.Fail?
    ensures RunPlan(plan, sqlite) == RunPlan(plan[..i], sqlite)
  {
    if i < |plan| {
      assert plan[..|plan| - 1][..i] == plan[..i];
      RunPlanStops(plan[..|plan| - 1], i, sqlite);
    } else {
      assert plan[..i] == plan;
    }
  }

  /** Positional binding: value k goes to slot k + 1. */
  function PositionalPlan(values: seq<Value>): (plan: seq<Slot>)
    ensures |plan| == |values|
  {
    seq(|values|, k requires 0 <= k < |values| => Use(values[k]))
  }

  /** The bindings a list of values should leave: slot k + 1 holds value k. */
  function Positional(values: seq<Value>): (m: map<int, Value>)
    ensures forall k :: k in m <==> 1 <= k <= |values|
    ensures forall k :: 1 <= k <= |values| ==> m[k] == values[k - 1]
  {
    if values == [] then map[] else Positional(values[..|values| - 1])[|values| := values[|values| - 1]]
  }

  /** `String(cString:).dropFirst()`: the parameter name without its ':',
      '@' or '$' prefix. */
  function DropFirst(s: string): string {
    if s == [] then [] else s[1..]
  }

  /** Named binding at the 0-based slot index i: the engine's name for the
      slot, less its first character, must be a key of the dictionary. */
  function NamedSlot(i: nat, name: Option<string>, values: map<string, Value>): Slot {
    match name
    case None => Reject(UnnamedParameter(i))
    case Some(n) =>
      if DropFirst(n) in values then Use(values[DropFirst(n)])
      else Reject(MissingValueForNamedParameter(DropFirst(n)))
  }

  function NamedPlan(names: seq<Option<string>>, values: map<string, Value>): (plan: seq<Slot>)
    ensures |plan| == |names|
  {
    seq(|names|, i requires 0 <= i < |names| => NamedSlot(i, names[i], values))
  }

  /** Binding a list in order leaves exactly value k at slot k + 1, and it
      succeeds precisely when every binder call the engine answers succeeds. */
  lemma {:induction false} PositionalBindsInOrder(values: seq<Value>, sqlite: Sqlite)
    ensures RunPlan(PositionalPlan(values), sqlite).0.Ok?
      <==> forall k :: 0 <= k < |values| ==> BindValue(values[k], k + 1, sqlite).Ok?
    ensures RunPlan(PositionalPlan(values), sqlite).0.Ok? ==>
      RunPlan(PositionalPlan(values), sqlite).1 == Positional(values)
  {
    if values != [] {
      var n := |values|;
      var front := values[..n - 1];
      assert PositionalPlan(values)[..n - 1] == PositionalPlan(front);
      PositionalBindsInOrder(front, sqlite);
      var (o, b) := RunPlan(PositionalPlan(front), sqlite);
    }
  }

  /** When named binding succeeds, every slot had a name whose key is in the
      dictionary and holds that key's value. */
  lemma {:induction false} NamedBindResolves(names: seq<Option<string>>, values: map<string, Value>, sqlite: Sqlite)
    requires RunPlan(NamedPlan(names, values), sqlite).0.Ok?
    ensures forall i :: 0 <= i < |names| ==> names[i].Some? && DropFirst(names[i].value) in values
    ensures var b := RunPlan(NamedPlan(names, values), sqlite).1;
      && (forall k :: k in b <==> 1 <= k <= |names|)
      && forall i :: 0 <= i < |names| ==> b[i + 1] == values[DropFirst(names[i].value)]
  {
    if names != [] {
      var n := |names|;
      var front := names[..n - 1];
      assert NamedPlan(names, values)[..n - 1] == NamedPlan(front, values);
      assert RunPlan(NamedPlan(front, values), sqlite).0.Ok?;
      NamedBindResolves(front, values, sqlite);
      var b := RunPlan(NamedPlan(front, values), sqlite).1;
    }
  }

  /** The replies still to come from a query statement: the engine evaluates
      the statement against the contents on its first step after preparation
      or reset, and each later step takes the next reply. */
  function Tape(cursor: Option<seq<Reply>>, e: Engine, sql: string, bindings: map<int, Value>): seq<Reply>
    reads e
  {
    if cursor.Some? then cursor.value else e.sqlite.evaluate(e.applied, Exec(sql, bindings))
  }

  /** A prepared statement. `live` is false once the handle is finalized;
      `bindings`, `lastStatus`, `cursor` (the replies still to come, None
      before the first step) and `current` (the cells of the row the last
      step produced) are the engine-side state of the handle. */
  class Statement {
    var live: bool
    const db: Engine
    const sql: string
    const parameterNames: seq<Option<string>>
    const columnNames: seq<Option<string>>
    /** `sqlite3_bind_parameter_count`, fixed for the statement's lifetime. */
    const parameterCount: int := |parameterNames|
    var bindings: map<int, Value>
    var lastStatus: int
    var cursor: Option<seq<Reply>>
    var current: seq<Cell>

    constructor (db: Engine, sql: string, parameterNames: seq<Option<string>>, columnNames: seq<Option<string>>)
      ensures this.db == db && this.sql == sql
      ensures this.parameterNames == parameterNames && this.columnNames == columnNames
      ensures live && bindings == map[] && lastStatus == SQLITE_OK
      ensures cursor == None && current == []
    {
      this.db := db;
      this.sql := sql;
      this.parameterNames := parameterNames;
      this.columnNames := columnNames;
      live := true;
      bindings := map[];
      lastStatus := SQLITE_OK;
      cursor := None;
      current := [];
    }

    /** `init(sql:db:)`: compile the text; a non-OK status raises the engine's
        SQLError, a text without a statement raises sqlGenerationError; the
        kept text is the engine's copy of the text, trimmed of ';' and white
        space. */
    static method Prepare(text: string, db: Engine) returns (r: Outcome<Statement>)
      ensures var c := db.sqlite.compile(text);
        && (c.status != SQLITE_OK ==> r == Fail(Check(c.status, db.sqlite.diagnose(c.status)).error))
        && (c.status == SQLITE_OK && !c.hasStatement ==> r == Fail(SqlGenerationError))
        && (r.Ok? <==> c.status == SQLITE_OK && c.hasStatement)
        && (r.Ok? ==>
              && fresh(r.value) && r.value.live && r.value.db == db
              && r.value.sql == Trim(text, Cleanup)
              && r.value.parameterNames == c.parameterNames
              && r.value.columnNames == c.columnNames
              && r.value.bindings == map[] && r.value.lastStatus == SQLITE_OK
              && r.value.cursor == None && r.value.current == [])
    {
      var c := db.sqlite.compile(text);
      var checked := Check(c.status, db.sqlite.diagnose(c.status));
      if checked.Fail? {
        return Fail(checked.error);
      }
      if !c.hasStatement {
        return Fail(SqlGenerationError);
      }
      var s := new Statement(db, Trim(text, Cleanup), c.parameterNames, c.columnNames);
      r := Ok(s);
    }

    /** `reset()`: the engine answers SQLITE_OK unless the last step failed,
        in which case it repeats that step's error. Either way the statement
        is rewound to its first step; bindings are kept. */
    method Reset() returns (r: Outcome<()>)
      requires live
      modifies this
      ensures r.Ok? <==> old(lastStatus) in {SQLITE_OK, SQLITE_ROW, SQLITE_DONE}
      ensures r.Fail? ==> r.error.SqlError? && r.error.errCode == old(lastStatus)
      ensures bindings == old(bindings) && live && lastStatus == SQLITE_OK
      ensures cursor == None && current == []
    {
      var status := if lastStatus in {SQLITE_OK, SQLITE_ROW, SQLITE_DONE} then SQLITE_OK else lastStatus;
      lastStatus := SQLITE_OK;
      cursor := None;
      current := [];
      r := Check(status, db.sqlite.diagnose(status));
    }

    /** `bind(_ values: Array<Value>)`: the count must equal parameterCount
        before anything is touched; then all bindings are cleared and value k
        is bound to slot k + 1, in order, stopping at the first failure. */
    method Bind(values: seq<Value>) returns (r: Outcome<()>)
      requires live
      modifies this
      ensures |values| != parameterCount ==>
        r == Fail(UnexpectedParameterCount(parameterCount)) && bindings == old(bindings)
      ensures |values| == parameterCount ==>
        (r, bindings) == RunPlan(PositionalPlan(values), db.sqlite)
      ensures live && lastStatus == old(lastStatus) && cursor == old(cursor) && current == old(current)
    {
      if |values| != parameterCount {
        return Fail(UnexpectedParameterCount(parameterCount));
      }
      bindings := map[];
      ghost var plan := PositionalPlan(values);
      var k := 0;
      while k < |values|
        invariant 0 <= k <= |values| && live && lastStatus == old(lastStatus)
        invariant cursor == old(cursor) && current == old(current)
        invariant RunPlan(plan[..k], db.sqlite) == (Ok(()), bindings)
      {
        assert plan[..k + 1][..k] == plan[..k];
        var bound := BindValue(values[k], k + 1, db.sqlite);
        if bound.Fail? {
          RunPlanStops(plan, k + 1, db.sqlite);
          return bound;
        }
        bindings := bindings[k + 1 := values[k]];
        k := k + 1;
      }
      assert plan[..k] == plan;
      r := Ok(());
    }

    /** `bind(_ values: Dictionary<String, Value>)`: the same count check,
        then clear, then for each slot take the engine's parameter name less
        its first character and bind that key's value; an anonymous slot
        raises unnamedParameter with its 0-based index, a missing key raises
        missingValueForNamedParameter. */
    method BindNamed(values: map<string, Value>) returns (r: Outcome<()>)
      requires live
      modifies this
      ensures |values| != parameterCount ==>
        r == Fail(UnexpectedParameterCount(parameterCount)) && bindings == old(bindings)
      ensures |values| == parameterCount ==>
        (r, bindings) == RunPlan(NamedPlan(parameterNames, values), db.sqlite)
      ensures live && lastStatus == old(lastStatus) && cursor == old(cursor) && current == old(current)
    {
      if |values| != parameterCount {
        return Fail(UnexpectedParameterCount(parameterCount));
      }
      bindings := map[];
      ghost var plan := NamedPlan(parameterNames, values);
      var i := 0;
      while i < parameterCount
        invariant 0 <= i <= parameterCount && live && lastStatus == old(lastStatus)
        invariant cursor == old(cursor) && current == old(current)
        invariant RunPlan(plan[..i], db.sqlite) == (Ok(()), bindings)
      {
        assert plan[..i + 1][..i] == plan[..i];
        match parameterNames[i]
        case None =>
          RunPlanStops(plan, i + 1, db.sqlite);
          return Fail(UnnamedParameter(i));
        case Some(cName) =>
          var name := DropFirst(cName);
          if name !in values {
            RunPlanStops(plan, i + 1, db.sqlite);
            return Fail(MissingValueForNamedParameter(name));
          }
          var bound := BindValue(values[name], i + 1, db.sqlite);
          if bound.Fail? {
            RunPlanStops(plan, i + 1, db.sqlite);
            return bound;
          }
          bindings := bindings[i + 1 := values[name]];
        i := i + 1;
      }
      assert plan[..i] == plan;
      r := Ok(());
    }

    /** `finalize()`: release the handle; doing it again changes nothing. */
    method Finalize()
      modifies this
      ensures !live && bindings == old(bindings) && lastStatus == old(lastStatus)
      ensures cursor == old(cursor) && current == old(current)
    {
      live := false;
    }

    /** sqlite3_step of a statement that yields rows: take the next reply; an
        exhausted tape answers SQLITE_DONE. The row cells are those of a
        SQLITE_ROW reply and empty otherwise. */
    method StepQuery() returns (status: int)
      requires live
      modifies this
      ensures var tape := Tape(old(cursor), db, sql, bindings);
        && status == (if tape == [] then SQLITE_DONE else tape[0].status)
        && cursor == Some(if tape == [] then [] else tape[1..])
        && current == (if tape != [] && status == SQLITE_ROW then tape[0].cells else [])
        && lastStatus == status
      ensures live && bindings == old(bindings)
    {
      var tape := Tape(cursor, db, sql, bindings);
      if tape == [] {
        status := SQLITE_DONE;
        cursor := Some([]);
        current := [];
      } else {
        status := tape[0].status;
        cursor := Some(tape[1..]);
        current := if status == SQLITE_ROW then tape[0].cells else [];
      }
      lastStatus := status;
    }

    /** `_update()`: step once and accept only SQLITE_DONE; the statement
        has run to its end, so a later step starts it afresh. */
    method Update() returns (r: Outcome<()>)
      requires live
      modifies this, db
      ensures var (status, st) := StepSpec(old(db.Snapshot()), Exec(sql, bindings), db.sqlite.verdict);
        && db.Snapshot() == st && lastStatus == status
        && r == Check(status, db.sqlite.diagnose(status), {SQLITE_DONE})
      ensures live && bindings == old(bindings) && cursor == None && current == []
    {
      var status := db.Step(Exec(sql, bindings));
      lastStatus := status;
      cursor := None;
      current := [];
      r := Check(status, db.sqlite.diagnose(status), {SQLITE_DONE});
    }
  }
}
