/** The `Database` conveniences (Database.swift): run or query a text in one
    call, and quote identifiers. A database here is the connection whose
    methods do the work; a save-point scope hands every call to its
    connection, so the same helpers serve both. */
module Databases {
  import opened Errors
  import opened Values
  import opened Text
  import opened Engine
  import opened Statements
  import opened Results
  import opened Connections

  /** `String.escape(prefix:suffix:)`: wrap the text, with no escaping of
      what is inside. */
  function Escape(s: string, prefix: string := "\"", suffix: string := "\""): (r: string)
    ensures |r| == |prefix| + |s| + |suffix|
    ensures r[..|prefix|] == prefix && r[|prefix|..|prefix| + |s|] == s && r[|prefix| + |s|..] == suffix
  {
    prefix + s + suffix
  }

  /** `Array.escape(prefix:suffix:)`: escape every element, keeping length
      and order. */
  function EscapeAll(names: seq<string>, prefix: string := "\"", suffix: string := "\""): (r: seq<string>)
    ensures |r| == |names|
    ensures forall i :: 0 <= i < |names| ==> r[i] == Escape(names[i], prefix, suffix)
  {
    if names == [] then [] else [Escape(names[0], prefix, suffix)] + EscapeAll(names[1..], prefix, suffix)
  }

  /** The parameters handed to a helper: a list (bound by position) or a
      dictionary (bound by name). */
  datatype Params = ByPosition(values: seq<Value>) | ByName(named: map<string, Value>)

  /** `bind` on a freshly prepared statement with slot names `names`: the
      count check, then slot after slot. */
  function BindOutcome(names: seq<Option<string>>, p: Params, sqlite: Sqlite): (Outcome<()>, map<int, Value>) {
    match p
    case ByPosition(vs) =>
      if |vs| != |names| then (Fail(UnexpectedParameterCount(|names|)), map[])
      else RunPlan(PositionalPlan(vs), sqlite)
    case ByName(m) =>
      if |m| != |names| then (Fail(UnexpectedParameterCount(|names|)), map[])
      else RunPlan(NamedPlan(names, m), sqlite)
  }

  /** `execute(sql:parameters:)` on an open handle in state `st`: prepare,
      reset, bind, execute; the first failure ends the chain. */
  function ExecuteSqlSpec(sqlite: Sqlite, st: State, sql: string, p: Params): (Outcome<()>, State) {
    var prep := PrepareOutcome(sqlite, sql);
    if prep.Fail? then (Fail(prep.error), st)
    else
      var (b, bindings) := BindOutcome(prep.value.parameterNames, p, sqlite);
      if b.Fail? then (b, st) else ExecuteEffect(sqlite, st, sql, bindings)
  }

  /** A helper call either fails and leaves the database as it was, or
      succeeds and its statement stepped to completion. */
  lemma ExecuteSqlAtomic(sqlite: Sqlite, st: State, sql: string, p: Params)
    ensures var (r, st') := ExecuteSqlSpec(sqlite, st, sql, p);
      && (r.Fail? ==> st' == st)
      && (r.Ok? ==> (PrepareOutcome(sqlite, sql).Ok? &&
            var bound := BindOutcome(PrepareOutcome(sqlite, sql).value.parameterNames, p, sqlite);
            bound.0.Ok? && StepSpec(st, Exec(Trim(sql, Cleanup), bound.1), sqlite.verdict) == (SQLITE_DONE, st')))
  {
    var prep := PrepareOutcome(sqlite, sql);
    if prep.Ok? {
      var (b, bindings) := BindOutcome(prep.value.parameterNames, p, sqlite);
      if b.Ok? {
        StepSpecShape(st, Exec(Trim(sql, Cleanup), bindings), sqlite.verdict);
      }
    }
  }

  /** `prepare(sql:)` then `execute(statement:)`, with no bindings: what a
      save-point scope does with each of its texts and a schema migration
      with each statement it generates. */
  function PrepareExecute(sqlite: Sqlite, st: State, text: string): (Outcome<()>, State) {
    var prep := PrepareOutcome(sqlite, text);
    if prep.Fail? then (Fail(prep.error), st) else ExecuteEffect(sqlite, st, text, map[])
  }

  /** Prepare `text` on the connection and execute the statement. */
  method PrepareAndExecute(conn: Connection, text: string) returns (r: Outcome<()>)
    modifies conn, conn.handle
    ensures conn.handle == old(conn.handle) && conn.spCounter == old(conn.spCounter)
    ensures conn.handle == null ==> r == Fail(Unopened) && conn.events == old(conn.events)
    ensures conn.handle != null ==>
      && (r, conn.handle.Snapshot()) == PrepareExecute(conn.handle.sqlite, old(conn.handle.Snapshot()), text)
      && conn.events == old(conn.events) + (if r.Ok? then [Updated] else [])
  {
    var stmt := conn.Prepare(text);
    if stmt.Fail? {
      return Fail(stmt.error);
    }
    r := conn.Execute(stmt.value);
  }

  /** The default parameter list is empty, so a text with placeholders fails
      the count check and nothing is executed. */
  lemma DefaultParametersRejectPlaceholders(sqlite: Sqlite, st: State, sql: string)
    requires sqlite.compile(sql).status == SQLITE_OK && sqlite.compile(sql).hasStatement
    requires |sqlite.compile(sql).parameterNames| > 0
    ensures ExecuteSqlSpec(sqlite, st, sql, ByPosition([])) ==
      (Fail(UnexpectedParameterCount(|sqlite.compile(sql).parameterNames|)), st)
  {
  }

  /** The statement a helper prepares and binds, as the engine then holds it. */
  predicate Bound(stmt: Statement, db: Engine, sql: string, names: seq<Option<string>>, bindings: map<int, Value>)
    reads stmt
  {
    && stmt.live && stmt.db == db && stmt.sql == Trim(sql, Cleanup)
    && stmt.parameterNames == names && stmt.bindings == bindings
    && stmt.cursor == None && stmt.current == []
  }

  /** Prepare, reset and bind: the steps the four helpers share. */
  method PrepareBound(conn: Connection, sql: string, p: Params) returns (r: Outcome<Statement>)
    ensures conn.handle == null ==> r == Fail(Unopened)
    ensures conn.handle != null ==>
      var prep := PrepareOutcome(conn.handle.sqlite, sql);
      && (prep.Fail? ==> r == Fail(prep.error))
      && (prep.Ok? ==>
            var (b, bindings) := BindOutcome(prep.value.parameterNames, p, conn.handle.sqlite);
            && (b.Fail? ==> r == Fail(b.error))
            && (b.Ok? ==>
                  (r.Ok? && fresh(r.value) && r.value.columnNames == prep.value.columnNames
                  && Bound(r.value, conn.handle, sql, prep.value.parameterNames, bindings)
                  && r.value.lastStatus == SQLITE_OK)))
  {
    var prepared := conn.Prepare(sql);
    if prepared.Fail? {
      return Fail(prepared.error);
    }
    var stmt := prepared.value;
    var reset := stmt.Reset();
    if reset.Fail? {
      assert false;
    }
    assert stmt.bindings == map[] && stmt.parameterCount == |stmt.parameterNames|;
    var bound: Outcome<()>;
    match p {
      case ByPosition(vs) =>
        bound := stmt.Bind(vs);
      case ByName(m) =>
        bound := stmt.BindNamed(m);
    }
    assert (bound, stmt.bindings) == BindOutcome(stmt.parameterNames, p, stmt.db.sqlite);
    if bound.Fail? {
      return Fail(bound.error);
    }
    r := Ok(stmt);
  }

  /** `execute(statement:)` on a statement that `sql` prepared and `p` bound:
      the same step as the helper that prepares and binds it. */
  method ExecuteBound(conn: Connection, stmt: Statement, ghost sql: string, ghost p: Params) returns (r: Outcome<()>)
    requires conn.handle != null
    requires var prep := PrepareOutcome(conn.handle.sqlite, sql);
      && prep.Ok?
      && var (b, bindings) := BindOutcome(prep.value.parameterNames, p, conn.handle.sqlite);
      && b.Ok? && Bound(stmt, conn.handle, sql, prep.value.parameterNames, bindings)
    modifies conn, conn.handle, stmt
    ensures conn.handle == old(conn.handle) && conn.spCounter == old(conn.spCounter)
    ensures (r, conn.handle.Snapshot()) == ExecuteSqlSpec(conn.handle.sqlite, old(conn.handle.Snapshot()), sql, p)
    ensures conn.events == old(conn.events) + (if r.Ok? then [Updated] else [])
  {
    r := conn.Execute(stmt);
  }

  /** `execute(sql:parameters:)`, either form. */
  method ExecuteSql(conn: Connection, sql: string, p: Params) returns (r: Outcome<()>)
    modifies conn, conn.handle
    ensures conn.handle == old(conn.handle) && conn.spCounter == old(conn.spCounter)
    ensures conn.handle == null ==> r == Fail(Unopened) && conn.events == old(conn.events)
    ensures conn.handle != null ==>
      && (r, conn.handle.Snapshot()) == ExecuteSqlSpec(conn.handle.sqlite, old(conn.handle.Snapshot()), sql, p)
      && conn.events == old(conn.events) + (if r.Ok? then [Updated] else [])
  {
    var stmt := PrepareBound(conn, sql, p);
    if stmt.Fail? {
      return Fail(stmt.error);
    }
    r := conn.Execute(stmt.value);
  }

  /** `query(sql:parameters:)`, either form: the cursor is returned without
      being stepped. */
  method QuerySql(conn: Connection, sql: string, p: Params) returns (r: Outcome<Result>)
    ensures conn.handle == null ==> r == Fail(Unopened)
    ensures conn.handle != null ==>
      var prep := PrepareOutcome(conn.handle.sqlite, sql);
      && (prep.Fail? ==> r == Fail(prep.error))
      && (prep.Ok? ==>
            var (b, bindings) := BindOutcome(prep.value.parameterNames, p, conn.handle.sqlite);
            var cols := ColumnsOf(prep.value.columnNames);
            && (b.Fail? ==> r == Fail(b.error))
            && (b.Ok? && cols.Fail? ==> r == Fail(cols.error))
            && (b.Ok? && cols.Ok? ==>
                  r.Ok? && fresh(r.value) && fresh(r.value.statement) && r.value.columns == cols.value
                  && Bound(r.value.statement, conn.handle, sql, prep.value.parameterNames, bindings)))
  {
    var stmt := PrepareBound(conn, sql, p);
    if stmt.Fail? {
      return Fail(stmt.error);
    }
    r := conn.Query(stmt.value);
  }
}
