/** Operations (Operation.swift) and the connection entry points that run
    them (Connection.swift, Record.swift): a migration records its name in a
    ledger table and runs its body, in a nested save-point, only when the
    ledger does not have it yet. */
module Operations {
  import opened Errors
  import opened Values
  import opened Text
  import opened Engine
  import opened Statements
  import opened Results
  import opened Connections
  import opened Databases
  import opened Savepoints
  import opened Schemas
  import opened Records
  import Models

  /** What a migration's `migrate(in:)` does. The base class does nothing; a
      `BlockMigration` runs its block, here the texts the block executes, in
      order; a schema migration creates a table and its indices. */
  datatype Body =
    | Nothing
    | Block(texts: seq<string>)
    | Tables(create: string, indexTexts: seq<string>)

  datatype Migration = Migration(name: string, body: Body)

  /** `TableSchema.migration`: named after the table, creating it. */
  function MigrationOf(schema: TableSchema): (m: Migration)
    reads schema
    ensures m.name == MigrationName(schema.tableName)
  {
    Migration(MigrationName(schema.tableName),
              Tables(CreateTableSql(schema.tableName, schema.columns, schema.foreignKeys),
                     IndexSqls(schema.tableName, schema.indices)))
  }

  // The ledger of migrations that have run.
  const Ledger := "\"RS_MIGRATION\""
  const LedgerTableSql := "CREATE TABLE IF NOT EXISTS " + Ledger + " (name TEXT PRIMARY KEY UNIQUE);"
  const HasRunSql := "SELECT EXISTS(SELECT 1 FROM " + Ledger + " WHERE \"name\" = ? LIMIT 1) AS \"hasRun\";"
  const RecordRunSql := "INSERT INTO " + Ledger + " (\"name\") VALUES (?);"

  /** A statement text the engine reads as an ordinary statement once its
      ';' and surrounding blanks are cut. */
  predicate PlainText(text: string) {
    Classify(Trim(text, Cleanup)).Plain?
  }

  /** A body made only of ordinary statements: no text of it opens, releases
      or rolls back a save-point of its own. */
  predicate PlainBody(body: Body) {
    match body
    case Nothing => true
    case Block(texts) => forall i :: 0 <= i < |texts| ==> PlainText(texts[i])
    case Tables(create, indexTexts) =>
      PlainText(create) && forall i :: 0 <= i < |indexTexts| ==> PlainText(indexTexts[i])
  }

  /** A text ending in ';' whose first letter starts none of the save-point
      commands is an ordinary statement. */
  lemma PlainByInitial(s: string)
    requires |s| >= 2 && s[|s| - 1] == ';' && s[|s| - 2] !in Cleanup
    requires s[0] !in Cleanup && s[0] != 'S' && s[0] != 'R'
    ensures PlainText(s)
  {
    var body := s[..|s| - 1];
    assert s == body + ";";
    TrimDropsTail(body, ";", Cleanup);
    assert Trim(s, Cleanup) == body;
    assert !HasPrefix(body, "SAVEPOINT ") by {
      if |body| >= 10 { assert body[..10][0] == s[0]; }
    }
    assert !HasPrefix(body, "RELEASE SAVEPOINT ") by {
      if |body| >= 18 { assert body[..18][0] == s[0]; }
    }
    assert !HasPrefix(body, "ROLLBACK TO SAVEPOINT ") by {
      if |body| >= 22 { assert body[..22][0] == s[0]; }
    }
  }

  /** The two ledger texts a migration executes are ordinary statements. */
  lemma LedgerTextsPlain()
    ensures PlainText(LedgerTableSql) && PlainText(RecordRunSql)
  {
    assert LedgerTableSql[0] == 'C' && LedgerTableSql[|LedgerTableSql| - 2] == ')';
    PlainByInitial(LedgerTableSql);
    assert RecordRunSql[0] == 'I' && RecordRunSql[|RecordRunSql| - 2] == ')';
    PlainByInitial(RecordRunSql);
  }

  /** `execute(sql:parameters:)` of an ordinary statement leaves the open
      save-points alone, and either changes nothing or appends one
      statement to the contents. */
  lemma ExecutePlain(sqlite: Sqlite, st: State, sql: string, p: Params)
    requires PlainText(sql)
    ensures var (r, s) := ExecuteSqlSpec(sqlite, st, sql, p);
      && s.savepoints == st.savepoints
      && (r.Fail? ==> s == st)
      && (r.Ok? ==> |s.applied| == |st.applied| + 1 && s.applied[..|st.applied|] == st.applied)
  {
    ExecuteSqlAtomic(sqlite, st, sql, p);
    var prep := PrepareOutcome(sqlite, sql);
    if prep.Ok? {
      var (b, bindings) := BindOutcome(prep.value.parameterNames, p, sqlite);
      if b.Ok? {
        StepSpecShape(st, Exec(Trim(sql, Cleanup), bindings), sqlite.verdict);
      }
    }
  }

  /** A block executing `texts` with `execute(sql:)`, one after the other,
      stopping at the first failure; one `updated` per text that ran. */
  function BlockSpec(sqlite: Sqlite, st: State, texts: seq<string>): (Outcome<()>, State, seq<EventName>)
    decreases |texts|
  {
    if texts == [] then (Ok(()), st, [])
    else
      var (r, s, ev) := BlockSpec(sqlite, st, texts[..|texts| - 1]);
      if r.Fail? then (r, s, ev)
      else
        var (r', s') := ExecuteSqlSpec(sqlite, s, texts[|texts| - 1], ByPosition([]));
        (r', s', ev + if r'.Ok? then [Updated] else [])
  }

  /** One more text after a prefix of the block that succeeded. */
  lemma BlockNext(sqlite: Sqlite, start: State, texts: seq<string>, i: nat, before: State, events: seq<EventName>,
                  done: Outcome<()>, after: State)
    requires i < |texts| && BlockSpec(sqlite, start, texts[..i]) == (Ok(()), before, events)
    requires (done, after) == ExecuteSqlSpec(sqlite, before, texts[i], ByPosition([]))
    ensures BlockSpec(sqlite, start, texts[..i + 1]) == (done, after, events + if done.Ok? then [Updated] else [])
  {
    assert texts[..i + 1][..i] == texts[..i];
  }

  /** Once a prefix of the block has failed, the rest of it never runs. */
  lemma {:induction false} BlockStops(sqlite: Sqlite, st: State, texts: seq<string>, n: nat)
    requires n <= |texts| && BlockSpec(sqlite, st, texts[..n]).0.Fail?
    ensures BlockSpec(sqlite, st, texts) == BlockSpec(sqlite, st, texts[..n])
    decreases |texts| - n
  {
    if n < |texts| {
      assert texts[..n + 1][..n] == texts[..n];
      BlockStops(sqlite, st, texts, n + 1);
    } else {
      assert texts[..n] == texts;
    }
  }

  /** A block of ordinary statements leaves the open save-points alone and
      only ever adds to the contents. */
  lemma {:induction false} BlockKeepsFrames(sqlite: Sqlite, st: State, texts: seq<string>)
    requires forall i :: 0 <= i < |texts| ==> PlainText(texts[i])
    ensures var (r, s, ev) := BlockSpec(sqlite, st, texts);
      s.savepoints == st.savepoints && |st.applied| <= |s.applied| && s.applied[..|st.applied|] == st.applied
    decreases |texts|
  {
    if texts != [] {
      var init := texts[..|texts| - 1];
      assert forall i :: 0 <= i < |init| ==> init[i] == texts[i];
      BlockKeepsFrames(sqlite, st, init);
      var (r, s, ev) := BlockSpec(sqlite, st, init);
      if r.Ok? {
        ExecutePlain(sqlite, s, texts[|texts| - 1], ByPosition([]));
        var (r', s') := ExecuteSqlSpec(sqlite, s, texts[|texts| - 1], ByPosition([]));
        assert s'.applied[..|st.applied|] == s'.applied[..|s.applied|][..|st.applied|];
      }
    }
  }

  /** What `migrate(in:)` does to the engine. */
  function BodySpec(sqlite: Sqlite, st: State, body: Body): (Outcome<()>, State, seq<EventName>) {
    match body
    case Nothing => (Ok(()), st, [])
    case Block(texts) => BlockSpec(sqlite, st, texts)
    case Tables(create, indexTexts) => MigrateSpec(sqlite, st, create, indexTexts)
  }

  /** A body of ordinary statements leaves the open save-points alone. */
  lemma BodyKeepsFrames(sqlite: Sqlite, st: State, body: Body)
    requires PlainBody(body)
    ensures BodySpec(sqlite, st, body).1.savepoints == st.savepoints
  {
    match body
    case Nothing =>
    case Block(texts) =>
      BlockKeepsFrames(sqlite, st, texts);
    case Tables(create, indexTexts) =>
      MigrateApplies(sqlite, st, create, indexTexts);
  }

  /** The block or the schema migration, run on the connection. */
  method RunBody(conn: Connection, body: Body) returns (r: Outcome<()>)
    requires conn.handle != null
    modifies conn, conn.handle
    ensures conn.handle == old(conn.handle) && conn.spCounter == old(conn.spCounter)
    ensures var (out, st, ev) := BodySpec(conn.handle.sqlite, old(conn.handle.Snapshot()), body);
      r == out && conn.handle.Snapshot() == st && conn.events == old(conn.events) + ev
  {
    match body
    case Nothing =>
      r := Ok(());
    case Block(texts) =>
      r := RunBlock(conn, texts);
    case Tables(create, indexTexts) =>
      r := MigrateTexts(conn, create, indexTexts);
  }

  /** `BlockMigration.migrate(in:)`: its block, executing `texts` in order. */
  method RunBlock(conn: Connection, texts: seq<string>) returns (r: Outcome<()>)
    requires conn.handle != null
    modifies conn, conn.handle
    ensures conn.handle == old(conn.handle) && conn.spCounter == old(conn.spCounter)
    ensures var (out, st, ev) := BlockSpec(conn.handle.sqlite, old(conn.handle.Snapshot()), texts);
      r == out && conn.handle.Snapshot() == st && conn.events == old(conn.events) + ev
  {
    ghost var start := conn.handle.Snapshot();
    var i := 0;
    while i < |texts|
      invariant 0 <= i <= |texts|
      invariant conn.handle == old(conn.handle) && conn.spCounter == old(conn.spCounter)
      invariant BlockSpec(conn.handle.sqlite, start, texts[..i]).0 == Ok(())
      invariant BlockSpec(conn.handle.sqlite, start, texts[..i]).1 == conn.handle.Snapshot()
      invariant conn.events == old(conn.events) + BlockSpec(conn.handle.sqlite, start, texts[..i]).2
    {
      ghost var before := conn.handle.Snapshot();
      var done := ExecuteSql(conn, texts[i], ByPosition([]));
      ghost var events := BlockSpec(conn.handle.sqlite, start, texts[..i]).2;
      BlockNext(conn.handle.sqlite, start, texts, i, before, events, done, conn.handle.Snapshot());
      EventsAssoc(old(conn.events), events, if done.Ok? then [Updated] else []);
      if done.Fail? {
        BlockStops(conn.handle.sqlite, start, texts, i + 1);
        return done;
      }
      i := i + 1;
    }
    assert texts[..i] == texts;
    r := Ok(());
  }

  lemma EventsAssoc(a: seq<EventName>, b: seq<EventName>, c: seq<EventName>)
    ensures a + b + c == a + (b + c)
  {
  }

  /** What a connection-level call leaves behind: its outcome, the engine
      state, the save-point counter and the events published. */
  datatype Trace = Trace(out: Outcome<()>, st: State, counter: nat, events: seq<EventName>)

  /** The call answered `r` and left the connection where `t` says, having
      published `t.events` after `events`. */
  predicate Follows(conn: Connection, r: Outcome<()>, t: Trace, events: seq<EventName>)
    reads conn, conn.handle
  {
    conn.handle != null && Trace(r, conn.handle.Snapshot(), conn.spCounter, conn.events) == t.(events := events + t.events)
  }

  /** The state once the save-point `name` is opened. */
  function Pushed(st: State, name: string): State {
    State(st.applied, st.savepoints + [Frame(name, st.applied)])
  }

  /** What the ledger query answers for `name` against the contents
      `applied`: whether its first row's "hasRun" column holds 1. */
  function HasRunSpec(sqlite: Sqlite, applied: seq<Exec>, name: string): Outcome<bool> {
    var q := Models.QueryReplies(sqlite, applied, HasRunSql, ByPosition([String(name)]));
    if q.Fail? then Fail(q.error)
    else
      var first := FirstSpec(q.value.0, q.value.1, sqlite.diagnose);
      if first.Fail? then Fail(first.error) else Ok(BoolFor(first.value, "hasRun"))
  }

  /** The ledger lookup: query with the name bound, take the first row, read
      its "hasRun" column. */
  method HasRun(conn: Connection, name: string) returns (r: Outcome<bool>)
    requires conn.handle != null
    ensures r == HasRunSpec(conn.handle.sqlite, conn.handle.applied, name)
  {
    ghost var q := Models.QueryReplies(conn.handle.sqlite, conn.handle.applied, HasRunSql, ByPosition([String(name)]));
    var result := QuerySql(conn, HasRunSql, ByPosition([String(name)]));
    if result.Fail? {
      assert q == Fail(result.error);
      return Fail(result.error);
    }
    assert q == Ok((result.value.Pending(), result.value.columns));
    var row := result.value.First();
    if row.Fail? {
      return Fail(row.error);
    }
    r := Ok(BoolFor(row.value, "hasRun"));
  }

  /** `sp.savepoint { migrate(in:) }` with the counter at `counter`: the
      counter is bumped, the save-point named after it is opened, the body
      runs, and the scope is released or rolled back. */
  function NestedSpec(sqlite: Sqlite, st: State, counter: nat, body: Body): Trace {
    var name := SavepointName(counter + 1);
    var begun := PrepareExecute(sqlite, st, BeginText(name));
    if begun.0.Fail? then Trace(begun.0, begun.1, counter + 1, [])
    else
      var scoped := ScopedSpec(sqlite, begun.1, name, body);
      Trace(scoped.0, scoped.1, counter + 1, [Updated, SavepointBegin] + scoped.2)
  }

  /** The block of `_savepoint` once the save-point `name` is open: the body
      runs, then the scope is released or rolled back. */
  function ScopedSpec(sqlite: Sqlite, st: State, name: string, body: Body): (Outcome<()>, State, seq<EventName>) {
    var (r, s, ev) := BodySpec(sqlite, st, body);
    var (x, s', ev', _) := ExitSpec(sqlite, s, false, name, r);
    (x, s', ev + ev')
  }

  /** The body and the end of a scope that has just begun. */
  method RunScoped(scope: Scope, body: Body) returns (r: Outcome<()>)
    requires scope.connection.handle != null && !scope.isCompleted
    modifies scope, scope.connection, scope.connection.handle
    ensures scope.connection.handle == old(scope.connection.handle)
    ensures scope.connection.spCounter == old(scope.connection.spCounter)
    ensures var (out, st, ev) := ScopedSpec(scope.connection.handle.sqlite, old(scope.connection.handle.Snapshot()), scope.name, body);
      r == out && scope.connection.handle.Snapshot() == st && scope.connection.events == old(scope.connection.events) + ev
  {
    var outcome := RunBody(scope.connection, body);
    r := Exit(scope, outcome);
  }

  /** On an engine that accepts save-point texts, a nested body of ordinary
      statements is all or nothing: the outcome is the body's; on success
      its changes stay and the save-point is gone; on failure the contents
      are those from before the body, with the save-point still open. */
  lemma NestedAtomic(sqlite: Sqlite, st: State, counter: nat, body: Body)
    requires AcceptsSavepoints(sqlite) && PlainBody(body)
    ensures var name := SavepointName(counter + 1);
      var (b, sb, _) := BodySpec(sqlite, Pushed(st, name), body);
      var n := NestedSpec(sqlite, st, counter, body);
      && n.out == b && n.counter == counter + 1
      && (b.Ok? ==> n.st == State(sb.applied, st.savepoints))
      && (b.Fail? ==> n.st == Pushed(st, name))
  {
    var name := SavepointName(counter + 1);
    GeneratedNamesArePlain(counter + 1);
    BeginPushes(sqlite, st, name);
    var pushed := Pushed(st, name);
    BodyKeepsFrames(sqlite, pushed, body);
    var (b, sb, _) := BodySpec(sqlite, pushed, body);
    assert Find(sb.savepoints, name) == Some(|st.savepoints|);
    if b.Ok? {
      ReleasePops(sqlite, sb, name);
      assert pushed.savepoints[..|st.savepoints|] == st.savepoints;
    } else {
      RollbackReturns(sqlite, sb, name);
      assert pushed.savepoints[..|st.savepoints| + 1] == pushed.savepoints;
    }
  }

  /** `sp.savepoint { migrate(in:) }` on the connection. */
  method Nested(conn: Connection, body: Body) returns (r: Outcome<()>)
    requires conn.handle != null
    modifies conn, conn.handle
    ensures conn.handle == old(conn.handle)
    ensures var t := NestedSpec(conn.handle.sqlite, old(conn.handle.Snapshot()), old(conn.spCounter), body);
      Follows(conn, r, t, old(conn.events))
  {
    var entered := Enter(conn);
    if entered.Fail? {
      return Fail(entered.error);
    }
    ghost var begun := conn.events;
    r := RunScoped(entered.value, body);
    EventsAssoc(old(conn.events), [Updated, SavepointBegin], conn.events[|begun|..]);
  }

  /** `Migration.perform(in:)` with the counter at `counter`: make sure the
      ledger exists; return at once when it already lists the name;
      otherwise run the body in a nested save-point and, only once that
      succeeded, add the name to the ledger. */
  function PerformSpec(sqlite: Sqlite, st: State, counter: nat, m: Migration): Trace {
    var (c, s1) := ExecuteSqlSpec(sqlite, st, LedgerTableSql, ByPosition([]));
    if c.Fail? then Trace(c, s1, counter, [])
    else
      var h := HasRunSpec(sqlite, s1.applied, m.name);
      if h.Fail? then Trace(Fail(h.error), s1, counter, [Updated])
      else if h.value then Trace(Ok(()), s1, counter, [Updated])
      else
        var n := NestedSpec(sqlite, s1, counter, m.body);
        if n.out.Fail? then Trace(n.out, n.st, n.counter, [Updated] + n.events)
        else
          var (i, s2) := ExecuteSqlSpec(sqlite, n.st, RecordRunSql, ByPosition([String(m.name)]));
          Trace(i, s2, n.counter, [Updated] + n.events + if i.Ok? then [Updated] else [])
  }

  /** A migration the ledger already lists changes nothing past the ledger
      table: no save-point is taken and its body never runs. */
  lemma PerformSkipsWhenRun(sqlite: Sqlite, st: State, counter: nat, m: Migration)
    requires ExecuteSqlSpec(sqlite, st, LedgerTableSql, ByPosition([])).0.Ok?
    requires HasRunSpec(sqlite, ExecuteSqlSpec(sqlite, st, LedgerTableSql, ByPosition([])).1.applied, m.name) == Ok(true)
    ensures PerformSpec(sqlite, st, counter, m) ==
      Trace(Ok(()), ExecuteSqlSpec(sqlite, st, LedgerTableSql, ByPosition([])).1, counter, [Updated])
  {
  }

  /** A migration not yet in the ledger, with a body of ordinary statements,
      on an engine that accepts save-point texts: when its body fails, the
      error is raised, the name is not added to the ledger and the contents
      are those from before the body; when its body succeeds, the name is
      added to the ledger after the body's changes. */
  lemma PerformRecordsOnlyAfterSuccess(sqlite: Sqlite, st: State, counter: nat, m: Migration)
    requires AcceptsSavepoints(sqlite) && PlainBody(m.body)
    requires ExecuteSqlSpec(sqlite, st, LedgerTableSql, ByPosition([])).0.Ok?
    requires HasRunSpec(sqlite, ExecuteSqlSpec(sqlite, st, LedgerTableSql, ByPosition([])).1.applied, m.name) == Ok(false)
    ensures var s1 := ExecuteSqlSpec(sqlite, st, LedgerTableSql, ByPosition([])).1;
      var (b, sb, _) := BodySpec(sqlite, Pushed(s1, SavepointName(counter + 1)), m.body);
      var p := PerformSpec(sqlite, st, counter, m);
      && p.counter == counter + 1
      && (b.Fail? ==> p.out == b && p.st.applied == s1.applied)
      && (b.Ok? ==>
            (p.out, p.st) == ExecuteSqlSpec(sqlite, State(sb.applied, s1.savepoints), RecordRunSql, ByPosition([String(m.name)])))
  {
    var s1 := ExecuteSqlSpec(sqlite, st, LedgerTableSql, ByPosition([])).1;
    NestedAtomic(sqlite, s1, counter, m.body);
  }

  /** `Migration.perform(in:)` on the connection of the enclosing scope. */
  method PerformMigration(conn: Connection, m: Migration) returns (r: Outcome<()>)
    requires conn.handle != null
    modifies conn, conn.handle
    ensures conn.handle == old(conn.handle)
    ensures var t := PerformSpec(conn.handle.sqlite, old(conn.handle.Snapshot()), old(conn.spCounter), m);
      Follows(conn, r, t, old(conn.events))
  {
    r := ExecuteSql(conn, LedgerTableSql, ByPosition([]));
    if r.Fail? {
      return;
    }
    var hasRun := HasRun(conn, m.name);
    if hasRun.Fail? {
      return Fail(hasRun.error);
    }
    if hasRun.value {
      return Ok(());
    }
    ghost var checked := conn.events;
    r := Nested(conn, m.body);
    ghost var nested := conn.events[|checked|..];
    EventsAssoc(old(conn.events), [Updated], nested);
    if r.Fail? {
      return;
    }
    r := ExecuteSql(conn, RecordRunSql, ByPosition([String(m.name)]));
    EventsAssoc(old(conn.events), [Updated] + nested, if r.Ok? then [Updated] else []);
  }

  /** What a migration leaves of the open save-points: none more when it
      succeeds, at most the one its failed body left open otherwise. */
  lemma PerformFrames(sqlite: Sqlite, st: State, counter: nat, m: Migration)
    requires AcceptsSavepoints(sqlite) && PlainBody(m.body)
    ensures var p := PerformSpec(sqlite, st, counter, m);
      && (p.out.Ok? ==> p.st.savepoints == st.savepoints)
      && (p.st.savepoints == st.savepoints
          || p.st.savepoints == st.savepoints + [Frame(SavepointName(counter + 1), p.st.applied)])
  {
    LedgerTextsPlain();
    ExecutePlain(sqlite, st, LedgerTableSql, ByPosition([]));
    var (c, s1) := ExecuteSqlSpec(sqlite, st, LedgerTableSql, ByPosition([]));
    assert s1.savepoints == st.savepoints;
    var p := PerformSpec(sqlite, st, counter, m);
    if c.Ok? {
      var h := HasRunSpec(sqlite, s1.applied, m.name);
      if h.Ok? && !h.value {
        NestedAtomic(sqlite, s1, counter, m.body);
        var n := NestedSpec(sqlite, s1, counter, m.body);
        if n.out.Fail? {
          assert p.st == n.st == Pushed(s1, SavepointName(counter + 1));
        } else {
          assert n.st.savepoints == st.savepoints;
          ExecutePlain(sqlite, n.st, RecordRunSql, ByPosition([String(m.name)]));
          assert p.st == ExecuteSqlSpec(sqlite, n.st, RecordRunSql, ByPosition([String(m.name)])).1;
        }
      }
    }
  }

  /** `perform(operation:)` with the counter at `counter`: a save-point of its
      own around `Migration.perform(in:)`. */
  function ConnectionPerformSpec(sqlite: Sqlite, st: State, counter: nat, m: Migration): Trace {
    var name := SavepointName(counter + 1);
    var begun := PrepareExecute(sqlite, st, BeginText(name));
    if begun.0.Fail? then Trace(begun.0, begun.1, counter + 1, [])
    else
      var p := PerformSpec(sqlite, begun.1, counter + 1, m);
      var exited := ExitSpec(sqlite, p.st, false, name, p.out);
      Trace(exited.0, exited.1, p.counter, [Updated, SavepointBegin] + p.events + exited.2)
  }

  /** On an engine that accepts save-point texts, performing a migration with
      a body of ordinary statements is all or nothing: a failure leaves the
      contents as they were before the call, and a success leaves no
      save-point open. */
  lemma ConnectionPerformAtomic(sqlite: Sqlite, st: State, counter: nat, m: Migration)
    requires AcceptsSavepoints(sqlite) && PlainBody(m.body)
    ensures var t := ConnectionPerformSpec(sqlite, st, counter, m);
      && (t.out.Fail? ==> t.st.applied == st.applied)
      && (t.out.Ok? ==> t.st.savepoints == st.savepoints)
  {
    var name := SavepointName(counter + 1);
    GeneratedNamesArePlain(counter + 1);
    BeginPushes(sqlite, st, name);
    var s1 := Pushed(st, name);
    PerformFrames(sqlite, s1, counter + 1, m);
    var p := PerformSpec(sqlite, s1, counter + 1, m);
    SavepointNamesDistinct(counter + 1, counter + 2);
    var k := |st.savepoints|;
    if p.st.savepoints == s1.savepoints {
      assert Find(p.st.savepoints, name) == Some(k);
    } else {
      var top := p.st.savepoints;
      assert top[..|top| - 1] == s1.savepoints;
      assert Find(top, name) == Find(s1.savepoints, name) == Some(k);
    }
    if p.out.Ok? {
      ReleasePops(sqlite, p.st, name);
      assert s1.savepoints[..k] == st.savepoints;
    } else {
      RollbackReturns(sqlite, p.st, name);
    }
  }

  /** `perform(operation:)` for a migration. */
  method ConnectionPerform(conn: Connection, m: Migration) returns (r: Outcome<()>)
    modifies conn, conn.handle
    ensures conn.handle == old(conn.handle)
    ensures conn.handle == null ==>
      r == Fail(Unopened) && conn.spCounter == old(conn.spCounter) && conn.events == old(conn.events)
    ensures conn.handle != null ==>
      Follows(conn, r, ConnectionPerformSpec(conn.handle.sqlite, old(conn.handle.Snapshot()), old(conn.spCounter), m),
              old(conn.events))
  {
    var entered := Enter(conn);
    if entered.Fail? {
      return Fail(entered.error);
    }
    var scope := entered.value;
    ghost var begun := conn.events;
    var done := PerformMigration(conn, m);
    ghost var performed := conn.events;
    r := Exit(scope, done);
    EventsAssoc(old(conn.events), [Updated, SavepointBegin], performed[|begun|..]);
    EventsAssoc(old(conn.events), [Updated, SavepointBegin] + performed[|begun|..], conn.events[|performed|..]);
  }

  /** `register(record:)`: perform the migration of the schema the record
      type's `createTableSchema()` returns (the base class's three columns,
      or a subclass's own table with its indices and foreign keys). */
  method Register(conn: Connection, schema: TableSchema) returns (r: Outcome<()>)
    modifies conn, conn.handle
    ensures conn.handle == old(conn.handle)
    ensures conn.handle == null ==>
      r == Fail(Unopened) && conn.spCounter == old(conn.spCounter) && conn.events == old(conn.events)
    ensures conn.handle != null ==>
      Follows(conn, r, ConnectionPerformSpec(conn.handle.sqlite, old(conn.handle.Snapshot()), old(conn.spCounter), MigrationOf(schema)),
              old(conn.events))
  {
    r := ConnectionPerform(conn, MigrationOf(schema));
  }

  /** The migrations of a schema's tables, in order. */
  function MigrationsOf(tables: seq<TableSchema>): (ms: seq<Migration>)
    reads set t | t in tables
    ensures |ms| == |tables|
  {
    if tables == [] then [] else MigrationsOf(tables[..|tables| - 1]) + [MigrationOf(tables[|tables| - 1])]
  }

  /** Each table's migration sits at the table's position. */
  lemma {:induction false} MigrationsOfAt(tables: seq<TableSchema>, i: nat)
    requires i < |tables|
    ensures MigrationsOf(tables)[i] == MigrationOf(tables[i])
    decreases |tables|
  {
    if i < |tables| - 1 {
      var init := tables[..|tables| - 1];
      MigrationsOfAt(init, i);
      assert init[i] == tables[i];
    }
  }

  /** Performing `ms` one after the other, stopping at the first failure. */
  function ApplySpec(sqlite: Sqlite, st: State, counter: nat, ms: seq<Migration>): Trace
    decreases |ms|
  {
    if ms == [] then Trace(Ok(()), st, counter, [])
    else
      var t := ApplySpec(sqlite, st, counter, ms[..|ms| - 1]);
      if t.out.Fail? then t
      else
        var u := ConnectionPerformSpec(sqlite, t.st, t.counter, ms[|ms| - 1]);
        Trace(u.out, u.st, u.counter, t.events + u.events)
  }

  /** One more migration after a prefix that succeeded. */
  lemma ApplyNext(sqlite: Sqlite, st: State, counter: nat, ms: seq<Migration>, i: nat, t: Trace)
    requires i < |ms| && t == ApplySpec(sqlite, st, counter, ms[..i]) && t.out.Ok?
    ensures var u := ConnectionPerformSpec(sqlite, t.st, t.counter, ms[i]);
      ApplySpec(sqlite, st, counter, ms[..i + 1]) == Trace(u.out, u.st, u.counter, t.events + u.events)
  {
    assert ms[..i + 1][..i] == ms[..i];
  }

  /** Once a migration has failed, the ones after it are never performed. */
  lemma {:induction false} ApplyStops(sqlite: Sqlite, st: State, counter: nat, ms: seq<Migration>, n: nat)
    requires n <= |ms| && ApplySpec(sqlite, st, counter, ms[..n]).out.Fail?
    ensures ApplySpec(sqlite, st, counter, ms) == ApplySpec(sqlite, st, counter, ms[..n])
    decreases |ms| - n
  {
    if n < |ms| {
      assert ms[..n + 1][..n] == ms[..n];
      ApplyStops(sqlite, st, counter, ms, n + 1);
    } else {
      assert ms[..n] == ms;
    }
  }

  /** On an engine that accepts save-point texts, applying migrations whose
      bodies are ordinary statements leaves no save-point open when it
      succeeds, and every migration before a failed one keeps its changes. */
  lemma {:induction false} ApplyLeavesNoFrames(sqlite: Sqlite, st: State, counter: nat, ms: seq<Migration>)
    requires AcceptsSavepoints(sqlite) && forall i :: 0 <= i < |ms| ==> PlainBody(ms[i].body)
    ensures var t := ApplySpec(sqlite, st, counter, ms);
      t.out.Ok? ==> t.st.savepoints == st.savepoints
    decreases |ms|
  {
    if ms != [] {
      var init := ms[..|ms| - 1];
      ApplyLeavesNoFrames(sqlite, st, counter, init);
      var t := ApplySpec(sqlite, st, counter, init);
      if t.out.Ok? {
        ConnectionPerformAtomic(sqlite, t.st, t.counter, ms[|ms| - 1]);
      }
    }
  }

  /** One pass of the loop of `apply(schema:)`: perform migration `m`, the
      `i`-th, after a prefix that succeeded. */
  method PerformNext(conn: Connection, m: Migration, ghost sqlite: Sqlite, ghost start: State, ghost counter: nat,
                     ghost events: seq<EventName>, ghost ms: seq<Migration>, ghost i: nat, ghost done: Trace)
    returns (r: Outcome<()>, ghost next: Trace)
    requires conn.handle != null && sqlite == conn.handle.sqlite
    requires i < |ms| && ms[i] == m && done == ApplySpec(sqlite, start, counter, ms[..i]) && done.out.Ok?
    requires Follows(conn, done.out, done, events)
    modifies conn, conn.handle
    ensures conn.handle == old(conn.handle)
    ensures next == ApplySpec(sqlite, start, counter, ms[..i + 1]) && r == next.out
    ensures r.Fail? ==> next == ApplySpec(sqlite, start, counter, ms)
    ensures Follows(conn, r, next, events)
  {
    r := ConnectionPerform(conn, m);
    ghost var u := ConnectionPerformSpec(sqlite, done.st, done.counter, m);
    ApplyNext(sqlite, start, counter, ms, i, done);
    EventsAssoc(events, done.events, u.events);
    next := Trace(u.out, u.st, u.counter, done.events + u.events);
    if r.Fail? {
      ApplyStops(sqlite, start, counter, ms, i + 1);
    }
  }

  /** `apply(schema:)`: perform each table's migration in order; the first
      failure ends it. */
  method Apply(conn: Connection, tables: seq<TableSchema>) returns (r: Outcome<()>)
    modifies conn, conn.handle
    ensures conn.handle == old(conn.handle)
    ensures conn.handle == null ==>
      r == (if tables == [] then Ok(()) else Fail(Unopened))
      && conn.spCounter == old(conn.spCounter) && conn.events == old(conn.events)
    ensures conn.handle != null ==>
      Follows(conn, r, ApplySpec(conn.handle.sqlite, old(conn.handle.Snapshot()), old(conn.spCounter), old(MigrationsOf(tables))),
              old(conn.events))
  {
    var ms := MigrationsOf(tables);
    if conn.handle == null {
      if tables == [] {
        return Ok(());
      }
      MigrationsOfAt(tables, 0);
      r := ConnectionPerform(conn, ms[0]);
      return;
    }
    r := ApplyOpen(conn, ms);
  }

  /** The loop of `apply(schema:)` on an open connection, `ms` being the
      tables' migrations. */
  method ApplyOpen(conn: Connection, ms: seq<Migration>) returns (r: Outcome<()>)
    requires conn.handle != null
    modifies conn, conn.handle
    ensures conn.handle == old(conn.handle)
    ensures Follows(conn, r, ApplySpec(conn.handle.sqlite, old(conn.handle.Snapshot()), old(conn.spCounter), ms),
                    old(conn.events))
  {
    ghost var start := conn.handle.Snapshot();
    ghost var sqlite := conn.handle.sqlite;
    ghost var counter := conn.spCounter;
    ghost var events := conn.events;
    ghost var done := Trace(Ok(()), start, counter, []);
    r := Ok(());
    var i := 0;
    while i < |ms|
      invariant 0 <= i <= |ms|
      invariant conn.handle == old(conn.handle)
      invariant done == ApplySpec(sqlite, start, counter, ms[..i]) && r == done.out && r.Ok?
      invariant Follows(conn, r, done, events)
    {
      r, done := PerformNext(conn, ms[i], sqlite, start, counter, events, ms, i, done);
      if r.Fail? {
        return;
      }
      i := i + 1;
    }
    assert ms[..i] == ms;
  }
}
