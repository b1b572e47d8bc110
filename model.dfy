/** Records as rows (Model.swift, and `reload` in Record.swift): the INSERT,
    UPDATE and DELETE texts built from a record's row, the writes that run
    them, and `find`. The row of a record is a dictionary; the order in which
    its entries are enumerated is not under the program's control, so the
    model chooses it freely and reports the choice. */
module Models {
  import opened Errors
  import opened Values
  import opened Text
  import opened Engine
  import opened Statements
  import opened Results
  import opened Connections
  import opened Databases
  import opened Records
  import opened Validators

  // The texts, as templates.

  /** `n` anonymous slots, to be joined. */
  function SlotItems(n: nat): (r: seq<seq<Piece>>)
    ensures |r| == n
    ensures forall i :: 0 <= i < n ==> r[i] == [Slot]
  {
    if n == 0 then [] else [[Slot]] + SlotItems(n - 1)
  }

  lemma {:induction false} SlotItemsCount(n: nat)
    ensures SlotCountAll(SlotItems(n)) == n && SlotNamesAll(SlotItems(n)) == []
  {
    if n > 0 {
      assert SlotItems(n)[1..] == SlotItems(n - 1);
      SlotItemsCount(n - 1);
    }
  }

  /** The text `insertStatement` builds for the entries `columns`: the table,
      the quoted column names and one placeholder per column. */
  function InsertTemplate(table: string, columns: seq<string>): seq<Piece> {
    [Raw("INSERT INTO " + Escape(table) + " (" + Join(EscapeAll(columns), ", ") + ") VALUES (")]
      + JoinPieces(SlotItems(|columns|), ", ") + [Raw(");")]
  }

  function InsertSql(table: string, columns: seq<string>): string {
    Render(InsertTemplate(table, columns))
  }

  /** `"<column>" = ?`, one per entry. */
  function Assignments(columns: seq<string>): (r: seq<seq<Piece>>)
    ensures |r| == |columns|
    ensures forall i :: 0 <= i < |columns| ==> r[i] == [Raw(Escape(columns[i]) + " = "), Slot]
  {
    if columns == [] then [] else [[Raw(Escape(columns[0]) + " = "), Slot]] + Assignments(columns[1..])
  }

  lemma {:induction false} AssignmentsCount(columns: seq<string>)
    ensures SlotCountAll(Assignments(columns)) == |columns| && SlotNamesAll(Assignments(columns)) == []
  {
    if columns != [] {
      assert Assignments(columns)[1..] == Assignments(columns[1..]);
      SlotsCons(Raw(Escape(columns[0]) + " = "), [Slot]);
      SlotsCons(Slot, []);
      AssignmentsCount(columns[1..]);
    }
  }

  /** The text `updateStatement` builds: an assignment per entry, then the
      key placeholder. */
  function UpdateTemplate(table: string, columns: seq<string>): seq<Piece> {
    [Raw("UPDATE " + Escape(table) + " SET ")] + JoinPieces(Assignments(columns), ", ")
      + [Raw(" WHERE \"rowid\" = "), Slot, Raw(";")]
  }

  function UpdateSql(table: string, columns: seq<string>): string {
    Render(UpdateTemplate(table, columns))
  }

  /** The text `deleteStatement` builds: the key is the named parameter `:id`. */
  function DeleteTemplate(table: string): seq<Piece> {
    [Raw("DELETE FROM " + Escape(table) + " WHERE \"rowid\" = "), NamedSlot("id"), Raw(";")]
  }

  function DeleteSql(table: string): string {
    Render(DeleteTemplate(table))
  }

  /** The text `find` runs. */
  function FindTemplate(table: string): seq<Piece> {
    [Raw("SELECT * FROM " + Escape(table) + " WHERE \"rowid\" = "), Slot, Raw(" LIMIT 1;")]
  }

  function FindSql(table: string): string {
    Render(FindTemplate(table))
  }

  /** The INSERT text has one anonymous slot per column and no named one, so
      it asks for as many values as the row has entries. */
  lemma InsertSlots(table: string, columns: seq<string>)
    ensures SlotCount(InsertTemplate(table, columns)) == |columns|
    ensures SlotNames(InsertTemplate(table, columns)) == []
  {
    var head := [Raw("INSERT INTO " + Escape(table) + " (" + Join(EscapeAll(columns), ", ") + ") VALUES (")];
    var body := JoinPieces(SlotItems(|columns|), ", ");
    JoinPiecesSlots(SlotItems(|columns|), ", ");
    SlotItemsCount(|columns|);
    SlotCountAppend(head + body, [Raw(");")]);
    SlotCountAppend(head, body);
    SlotNamesAppend(head + body, [Raw(");")]);
    SlotNamesAppend(head, body);
  }

  /** The UPDATE text has one anonymous slot per column and one more for the
      key, and no named one: as many as the values it is bound with. */
  lemma UpdateSlots(table: string, columns: seq<string>)
    ensures SlotCount(UpdateTemplate(table, columns)) == |columns| + 1
    ensures SlotNames(UpdateTemplate(table, columns)) == []
  {
    var head := [Raw("UPDATE " + Escape(table) + " SET ")];
    var body := JoinPieces(Assignments(columns), ", ");
    var tail := [Raw(" WHERE \"rowid\" = "), Slot, Raw(";")];
    JoinPiecesSlots(Assignments(columns), ", ");
    AssignmentsCount(columns);
    SlotCountAppend(head + body, tail);
    SlotCountAppend(head, body);
    SlotNamesAppend(head + body, tail);
    SlotNamesAppend(head, body);
  }

  /** The DELETE text's only slot is the named `:id` it is bound with. */
  lemma DeleteSlots(table: string)
    ensures SlotCount(DeleteTemplate(table)) == 0 && SlotNames(DeleteTemplate(table)) == ["id"]
  {
    SlotsCons(Raw("DELETE FROM " + Escape(table) + " WHERE \"rowid\" = "), [NamedSlot("id"), Raw(";")]);
    SlotsCons(NamedSlot("id"), [Raw(";")]);
    SlotsCons(Raw(";"), []);
  }

  /** The lookup by key has the one anonymous slot for the key. */
  lemma FindSlots(table: string)
    ensures SlotCount(FindTemplate(table)) == 1 && SlotNames(FindTemplate(table)) == []
  {
    SlotsCons(Raw("SELECT * FROM " + Escape(table) + " WHERE \"rowid\" = "), [Slot, Raw(" LIMIT 1;")]);
    SlotsCons(Slot, [Raw(" LIMIT 1;")]);
    SlotsCons(Raw(" LIMIT 1;"), []);
  }

  // Enumerating a row.

  /** `columns` and `values` list the entries of `row`, each exactly once and
      in the same order. */
  predicate Enumerates(columns: seq<string>, values: seq<Value>, row: Row) {
    && |columns| == |values|
    && (forall i :: 0 <= i < |columns| ==> columns[i] in row && values[i] == row[columns[i]])
    && (forall i, j :: 0 <= i < j < |columns| ==> columns[i] != columns[j])
    && (forall k :: k in row ==> k in columns)
  }

  /** `for (column, value) in row`: the entries in whatever order the
      dictionary yields them. */
  method Entries(row: Row) returns (columns: seq<string>, values: seq<Value>)
    ensures Enumerates(columns, values, row)
  {
    columns, values := [], [];
    var remaining := row.Keys;
    while remaining != {}
      invariant remaining <= row.Keys && |columns| == |values|
      invariant forall i :: 0 <= i < |columns| ==> columns[i] in row && columns[i] !in remaining && values[i] == row[columns[i]]
      invariant forall i, j :: 0 <= i < j < |columns| ==> columns[i] != columns[j]
      invariant forall k :: k in row ==> k in remaining || k in columns
      decreases |remaining|
    {
      var k :| k in remaining;
      columns, values := columns + [k], values + [row[k]];
      remaining := remaining - {k};
    }
  }

  // Preparing and binding.

  /** `prepare(sql:)` then `bind`, as the three statement builders do (no
      reset in between). */
  method PrepareBind(conn: Connection, sql: string, p: Params) returns (r: Outcome<Statement>)
    ensures conn.handle == null ==> r == Fail(Unopened)
    ensures conn.handle != null ==>
      var prep := PrepareOutcome(conn.handle.sqlite, sql);
      && (prep.Fail? ==> r == Fail(prep.error))
      && (prep.Ok? ==>
            var (b, bindings) := BindOutcome(prep.value.parameterNames, p, conn.handle.sqlite);
            && (b.Fail? ==> r == Fail(b.error))
            && (b.Ok? ==>
                  && r.Ok? && fresh(r.value) && r.value.columnNames == prep.value.columnNames
                  && Databases.Bound(r.value, conn.handle, sql, prep.value.parameterNames, bindings)))
  {
    var prepared := conn.Prepare(sql);
    if prepared.Fail? {
      return Fail(prepared.error);
    }
    var stmt := prepared.value;
    assert stmt.parameterCount == |stmt.parameterNames|;
    var bound: Outcome<()>;
    match p {
      case ByPosition(vs) =>
        bound := stmt.Bind(vs);
      case ByName(m) =>
        bound := stmt.BindNamed(m);
    }
    assert (bound, stmt.bindings) == BindOutcome(stmt.parameterNames, p, stmt.db.sqlite);
    if bound.Fail? {
      return Fail(bound.error);
    }
    r := Ok(stmt);
  }

  /** `insertStatement(forDatabase:)`: the record's entries, in the order
      chosen, as quoted columns, placeholders and positional values. */
  method InsertStatement(conn: Connection, record: Record)
    returns (r: Outcome<Statement>, ghost columns: seq<string>, ghost values: seq<Value>)
    ensures Enumerates(columns, values, record.storage)
    ensures conn.handle == null ==> r == Fail(Unopened)
    ensures conn.handle != null ==>
      var prep := PrepareOutcome(conn.handle.sqlite, InsertSql(record.kind, columns));
      && (prep.Fail? ==> r == Fail(prep.error))
      && (prep.Ok? ==>
            var (b, bindings) := BindOutcome(prep.value.parameterNames, ByPosition(values), conn.handle.sqlite);
            && (b.Fail? ==> r == Fail(b.error))
            && (b.Ok? ==>
                  (r.Ok? && fresh(r.value)
                  && Databases.Bound(r.value, conn.handle, InsertSql(record.kind, columns), prep.value.parameterNames, bindings))))
  {
    var row := record.Row();
    var cols, vals := Entries(row.value);
    columns, values := cols, vals;
    r := PrepareBind(conn, InsertSql(record.kind, cols), ByPosition(vals));
  }

  /** `updateStatement(forDatabase:)`: an assignment per entry, bound with
      the entries' values followed by the primary key. */
  method UpdateStatement(conn: Connection, record: Record)
    returns (r: Outcome<Statement>, ghost columns: seq<string>, ghost values: seq<Value>)
    ensures Enumerates(columns, values, record.storage)
    ensures conn.handle == null ==> r == Fail(Unopened)
    ensures conn.handle != null ==>
      var sql := UpdateSql(record.kind, columns);
      var prep := PrepareOutcome(conn.handle.sqlite, sql);
      && (prep.Fail? ==> r == Fail(prep.error))
      && (prep.Ok? ==>
            var (b, bindings) := BindOutcome(prep.value.parameterNames, ByPosition(values + [Int64(record.PrimaryKey())]), conn.handle.sqlite);
            && (b.Fail? ==> r == Fail(b.error))
            && (b.Ok? ==> r.Ok? && fresh(r.value) && Databases.Bound(r.value, conn.handle, sql, prep.value.parameterNames, bindings)))
  {
    var row := record.Row();
    var cols, vals := Entries(row.value);
    columns, values := cols, vals;
    r := PrepareBind(conn, UpdateSql(record.kind, cols), ByPosition(vals + [Int64(record.PrimaryKey())]));
  }

  /** `deleteStatement(forDatabase:)`: the key bound by name to `:id`. */
  method DeleteStatement(conn: Connection, record: Record) returns (r: Outcome<Statement>)
    ensures conn.handle == null ==> r == Fail(Unopened)
    ensures conn.handle != null ==>
      var prep := PrepareOutcome(conn.handle.sqlite, DeleteSql(record.kind));
      && (prep.Fail? ==> r == Fail(prep.error))
      && (prep.Ok? ==>
            var (b, bindings) := BindOutcome(prep.value.parameterNames, ByName(map["id" := Int64(record.PrimaryKey())]), conn.handle.sqlite);
            && (b.Fail? ==> r == Fail(b.error))
            && (b.Ok? ==> r.Ok? && fresh(r.value) && Databases.Bound(r.value, conn.handle, DeleteSql(record.kind), prep.value.parameterNames, bindings)))
  {
    r := PrepareBind(conn, DeleteSql(record.kind), ByName(map["id" := Int64(record.PrimaryKey())]));
  }

  // Writing records.

  /** The write part of `insert(model:)`, after validation: build the
      statement, execute it, read the new row id and hand it to the record. */
  method InsertRow(conn: Connection, record: Record)
    returns (r: Outcome<()>, ghost columns: seq<string>, ghost values: seq<Value>)
    modifies conn, conn.handle, record
    ensures Enumerates(columns, values, old(record.storage))
    ensures conn.handle == old(conn.handle) && conn.spCounter == old(conn.spCounter)
    ensures conn.handle == null ==>
      r == Fail(Unopened) && conn.events == old(conn.events) && record.storage == old(record.storage)
    ensures conn.handle != null ==>
      var (done, st) := ExecuteSqlSpec(conn.handle.sqlite, old(conn.handle.Snapshot()), InsertSql(record.kind, columns), ByPosition(values));
      && conn.handle.Snapshot() == st
      && conn.events == old(conn.events) + (if done.Ok? then [Updated] else [])
      && (done.Fail? ==> r == done && record.storage == old(record.storage))
      && (done.Ok? ==>
            r == Ok(()) && record.storage == old(record.storage)["id" := Int64(conn.handle.sqlite.lastRowId(st.applied))])
  {
    var stmt;
    stmt, columns, values := InsertStatement(conn, record);
    if stmt.Fail? {
      return Fail(stmt.error), columns, values;
    }
    r := ExecuteBound(conn, stmt.value, InsertSql(record.kind, columns), ByPosition(values));
    if r.Fail? {
      return;
    }
    var id := conn.LastInsertedRowId();
    record.Inserted(id.value);
  }

  /** `insert(model:)`: the insert hook, validation, then the write. A record
      that fails validation is neither written nor changed; otherwise the
      record's entries are written, in the order chosen, and the new row id
      becomes its primary key. */
  method Insert(conn: Connection, record: Record, extra: seq<Rule>)
    returns (r: Outcome<()>, ghost columns: seq<string>, ghost values: seq<Value>)
    modifies conn, conn.handle, record
    ensures conn.handle == old(conn.handle) && conn.spCounter == old(conn.spCounter)
    ensures var v := old(RecordValidateSpec(BaseRules + extra, record.storage, LookupIn(conn.handle)));
      && (v.Fail? ==>
            && r == v && conn.events == old(conn.events) && record.storage == old(record.storage)
            && (conn.handle != null ==> conn.handle.Snapshot() == old(conn.handle.Snapshot())))
      && (v.Ok? ==> Enumerates(columns, values, old(record.storage)))
      && (v.Ok? && conn.handle == null ==>
            r == Fail(Unopened) && conn.events == old(conn.events) && record.storage == old(record.storage))
      && (v.Ok? && conn.handle != null ==>
            var (done, st) := ExecuteSqlSpec(conn.handle.sqlite, old(conn.handle.Snapshot()), InsertSql(record.kind, columns), ByPosition(values));
            && conn.handle.Snapshot() == st
            && conn.events == old(conn.events) + (if done.Ok? then [Updated] else [])
            && (done.Fail? ==> r == done && record.storage == old(record.storage))
            && (done.Ok? ==>
                  && r == Ok(()) && record.storage == old(record.storage)["id" := Int64(conn.handle.sqlite.lastRowId(st.applied))]
                  && record.PrimaryKey() == conn.handle.sqlite.lastRowId(st.applied)))
  {
    record.WillInsert();
    r := ValidateRecord(record, conn, extra);
    if r.Fail? {
      return r, [], [];
    }
    r, columns, values := InsertRow(conn, record);
  }

  /** The write part of `update(model:)`: build the statement and execute it. */
  method UpdateRow(conn: Connection, record: Record)
    returns (r: Outcome<()>, ghost columns: seq<string>, ghost values: seq<Value>)
    modifies conn, conn.handle
    ensures Enumerates(columns, values, record.storage)
    ensures conn.handle == old(conn.handle) && conn.spCounter == old(conn.spCounter)
    ensures conn.handle == null ==> r == Fail(Unopened) && conn.events == old(conn.events)
    ensures conn.handle != null ==>
      && (r, conn.handle.Snapshot()) == ExecuteSqlSpec(conn.handle.sqlite, old(conn.handle.Snapshot()),
           UpdateSql(record.kind, columns), ByPosition(values + [Int64(record.PrimaryKey())]))
      && conn.events == old(conn.events) + (if r.Ok? then [Updated] else [])
  {
    var stmt;
    stmt, columns, values := UpdateStatement(conn, record);
    if stmt.Fail? {
      return Fail(stmt.error), columns, values;
    }
    r := ExecuteBound(conn, stmt.value, UpdateSql(record.kind, columns), ByPosition(values + [Int64(record.PrimaryKey())]));
  }

  /** `update(model:)`: the update hook stamps `updatedAt` with `now` whether
      or not what follows succeeds; then validation of the stamped record
      and the write of all its entries, keyed by its primary key. */
  method Update(conn: Connection, record: Record, extra: seq<Rule>, now: Value)
    returns (r: Outcome<()>, ghost columns: seq<string>, ghost values: seq<Value>)
    modifies conn, conn.handle, record
    ensures record.storage == old(record.storage)["updatedAt" := now]
    ensures record.PrimaryKey() == old(record.PrimaryKey())
    ensures conn.handle == old(conn.handle) && conn.spCounter == old(conn.spCounter)
    ensures var v := old(RecordValidateSpec(BaseRules + extra, record.storage["updatedAt" := now], LookupIn(conn.handle)));
      && (v.Fail? ==>
            && r == v && conn.events == old(conn.events)
            && (conn.handle != null ==> conn.handle.Snapshot() == old(conn.handle.Snapshot())))
      && (v.Ok? ==> Enumerates(columns, values, record.storage))
      && (v.Ok? && conn.handle == null ==> r == Fail(Unopened) && conn.events == old(conn.events))
      && (v.Ok? && conn.handle != null ==>
            && (r, conn.handle.Snapshot()) == ExecuteSqlSpec(conn.handle.sqlite, old(conn.handle.Snapshot()),
                 UpdateSql(record.kind, columns), ByPosition(values + [Int64(old(record.PrimaryKey()))]))
            && conn.events == old(conn.events) + (if r.Ok? then [Updated] else []))
  {
    record.WillUpdate(now);
    r := ValidateRecord(record, conn, extra);
    if r.Fail? {
      return r, [], [];
    }
    r, columns, values := UpdateRow(conn, record);
  }

  /** `save(model:)`: a record with a positive primary key is updated, any
      other is inserted; each branch keeps the whole promise of the method
      it dispatches to, failures included. */
  method Save(conn: Connection, record: Record, extra: seq<Rule>, now: Value)
    returns (r: Outcome<()>, ghost columns: seq<string>, ghost values: seq<Value>)
    modifies conn, conn.handle, record
    ensures conn.handle == old(conn.handle) && conn.spCounter == old(conn.spCounter)
    ensures old(record.PrimaryKey()) > 0 ==>
      && record.storage == old(record.storage)["updatedAt" := now]
      && record.PrimaryKey() == old(record.PrimaryKey())
      && var v := old(RecordValidateSpec(BaseRules + extra, record.storage["updatedAt" := now], LookupIn(conn.handle)));
      && (v.Fail? ==>
            && r == v && conn.events == old(conn.events)
            && (conn.handle != null ==> conn.handle.Snapshot() == old(conn.handle.Snapshot())))
      && (v.Ok? ==> Enumerates(columns, values, record.storage))
      && (v.Ok? && conn.handle == null ==> r == Fail(Unopened) && conn.events == old(conn.events))
      && (v.Ok? && conn.handle != null ==>
            && (r, conn.handle.Snapshot()) == ExecuteSqlSpec(conn.handle.sqlite, old(conn.handle.Snapshot()),
                 UpdateSql(record.kind, columns), ByPosition(values + [Int64(old(record.PrimaryKey()))]))
            && conn.events == old(conn.events) + (if r.Ok? then [Updated] else []))
    ensures old(record.PrimaryKey()) <= 0 ==>
      var v := old(RecordValidateSpec(BaseRules + extra, record.storage, LookupIn(conn.handle)));
      && (v.Fail? ==>
            && r == v && conn.events == old(conn.events) && record.storage == old(record.storage)
            && (conn.handle != null ==> conn.handle.Snapshot() == old(conn.handle.Snapshot())))
      && (v.Ok? ==> Enumerates(columns, values, old(record.storage)))
      && (v.Ok? && conn.handle == null ==>
            r == Fail(Unopened) && conn.events == old(conn.events) && record.storage == old(record.storage))
      && (v.Ok? && conn.handle != null ==>
            var (done, st) := ExecuteSqlSpec(conn.handle.sqlite, old(conn.handle.Snapshot()), InsertSql(record.kind, columns), ByPosition(values));
            && conn.handle.Snapshot() == st
            && conn.events == old(conn.events) + (if done.Ok? then [Updated] else [])
            && (done.Fail? ==> r == done && record.storage == old(record.storage))
            && (done.Ok? ==>
                  && r == Ok(()) && record.storage == old(record.storage)["id" := Int64(conn.handle.sqlite.lastRowId(st.applied))]
                  && record.PrimaryKey() == conn.handle.sqlite.lastRowId(st.applied)))
  {
    if record.PrimaryKey() > 0 {
      r, columns, values := Update(conn, record, extra, now);
    } else {
      r, columns, values := Insert(conn, record, extra);
    }
  }

  /** `delete(model:)`: a record without a positive primary key is left
      alone and nothing is run; otherwise its row is deleted by key. The
      source's `_willDelete` hook is not defined anywhere in it and is taken
      to do nothing. */
  method Delete(conn: Connection, record: Record) returns (r: Outcome<()>)
    modifies conn, conn.handle
    ensures conn.handle == old(conn.handle) && conn.spCounter == old(conn.spCounter)
    ensures record.PrimaryKey() <= 0 ==>
      && r == Ok(()) && conn.events == old(conn.events)
      && (conn.handle != null ==> conn.handle.Snapshot() == old(conn.handle.Snapshot()))
    ensures record.PrimaryKey() > 0 && conn.handle == null ==> r == Fail(Unopened) && conn.events == old(conn.events)
    ensures record.PrimaryKey() > 0 && conn.handle != null ==>
      && (r, conn.handle.Snapshot()) == ExecuteSqlSpec(conn.handle.sqlite, old(conn.handle.Snapshot()),
           DeleteSql(record.kind), ByName(map["id" := Int64(record.PrimaryKey())]))
      && conn.events == old(conn.events) + (if r.Ok? then [Updated] else [])
  {
    if record.PrimaryKey() <= 0 {
      return Ok(());
    }
    var stmt := DeleteStatement(conn, record);
    if stmt.Fail? {
      return Fail(stmt.error);
    }
    r := ExecuteBound(conn, stmt.value, DeleteSql(record.kind), ByName(map["id" := Int64(record.PrimaryKey())]));
  }

  /** The DELETE text asks for exactly the parameter it is bound with. */
  lemma DeleteBindsItsSlot(table: string, key: int64)
    ensures SlotCount(DeleteTemplate(table)) == 0
    ensures (set n | n in SlotNames(DeleteTemplate(table))) == map["id" := Int64(key)].Keys
  {
    DeleteSlots(table);
  }

  // Finding records.

  /** A query prepared from `sql` and bound with `p` on an engine driven by
      `sqlite` whose database holds `applied`: the replies it will give and
      its columns, or the error preparing, binding or reading the column
      names raised. */
  function QueryReplies(sqlite: Sqlite, applied: seq<Exec>, sql: string, p: Params): Outcome<(seq<Reply>, seq<Column>)> {
    var prep := PrepareOutcome(sqlite, sql);
    if prep.Fail? then Fail(prep.error)
    else
      var (b, bindings) := BindOutcome(prep.value.parameterNames, p, sqlite);
      if b.Fail? then Fail(b.error)
      else
        var cols := ColumnsOf(prep.value.columnNames);
        if cols.Fail? then Fail(cols.error)
        else Ok((sqlite.evaluate(applied, Exec(Trim(sql, Cleanup), bindings)), cols.value))
  }

  /** The query `find(type:_:)` runs: the key bound to the one slot. */
  function FindQuery(sqlite: Sqlite, applied: seq<Exec>, kind: string, id: int64): Outcome<(seq<Reply>, seq<Column>)> {
    QueryReplies(sqlite, applied, FindSql(kind), ByPosition([Int64(id)]))
  }

  /** What `find(type:_:)` answers: the first row, NotFoundError for the
      type and id when there is none, any other error as raised. */
  function FindSpec(sqlite: Sqlite, applied: seq<Exec>, kind: string, id: int64): Outcome<Row> {
    var q := FindQuery(sqlite, applied, kind, id);
    if q.Fail? then Fail(q.error)
    else
      var first := FirstSpec(q.value.0, q.value.1, sqlite.diagnose);
      if first == Fail(NoRows) then Fail(NotFound(kind, id as int)) else first
  }

  /** When the query runs and its rows can be read, `find` answers
      NotFoundError exactly when there is no row, and the first row
      otherwise. */
  lemma FindIsFirstRow(sqlite: Sqlite, applied: seq<Exec>, kind: string, id: int64)
    requires FindQuery(sqlite, applied, kind, id).Ok?
    requires RowsOf(FindQuery(sqlite, applied, kind, id).value.0, FindQuery(sqlite, applied, kind, id).value.1, sqlite.diagnose).Ok?
    ensures var (tape, cols) := FindQuery(sqlite, applied, kind, id).value;
      var rows := RowsOf(tape, cols, sqlite.diagnose).value;
      && (FindSpec(sqlite, applied, kind, id) == Fail(NotFound(kind, id as int)) <==> rows == [])
      && (rows != [] ==> FindSpec(sqlite, applied, kind, id) == Ok(rows[0]))
  {
    var (tape, cols) := FindQuery(sqlite, applied, kind, id).value;
    FirstIsHeadOfRows(tape, cols, sqlite.diagnose);
  }

  /** `find(type:_:)`: prepare, bind the id, query, take the first row and
      build a record of the type from it. */
  method Find(conn: Connection, kind: string, id: int64) returns (r: Outcome<Record>)
    ensures conn.handle == null ==> r == Fail(Unopened)
    ensures conn.handle != null ==>
      var f := FindSpec(conn.handle.sqlite, conn.handle.applied, kind, id);
      && (f.Fail? ==> r == Fail(f.error))
      && (f.Ok? ==> r.Ok? && fresh(r.value) && r.value.kind == kind && r.value.storage == f.value)
  {
    var prepared := conn.Prepare(FindSql(kind));
    if prepared.Fail? {
      return Fail(prepared.error);
    }
    var stmt := prepared.value;
    var bound := stmt.Bind([Int64(id)]);
    if bound.Fail? {
      return Fail(bound.error);
    }
    var result := conn.Query(stmt);
    if result.Fail? {
      return Fail(result.error);
    }
    var row := result.value.First();
    if row == Fail(NoRows) {
      return Fail(NotFound(kind, id as int));
    }
    if row.Fail? {
      return Fail(row.error);
    }
    var found := new Record(kind, row.value);
    r := Ok(found);
  }

  /** `reload(for:)`: find the record's row by its primary key and take its
      values; on failure the record is left as it was. */
  method Reload(conn: Connection, record: Record) returns (r: Outcome<()>)
    modifies record
    ensures conn.handle == null ==> r == Fail(Unopened) && record.storage == old(record.storage)
    ensures conn.handle != null ==>
      var f := FindSpec(conn.handle.sqlite, conn.handle.applied, record.kind, old(record.PrimaryKey()));
      && (f.Fail? ==> r == Fail(f.error) && record.storage == old(record.storage))
      && (f.Ok? ==> r == Ok(()) && record.storage == f.value)
  {
    var found := Find(conn, record.kind, record.PrimaryKey());
    if found.Fail? {
      return Fail(found.error);
    }
    record.storage := found.value.storage;
    r := Ok(());
  }

  /** `T.init(withRow:)` for the next row, kept after the records already
      read. */
  method Adopt(records: seq<Record>, ghost rows: seq<Row>, row: Row, kind: string) returns (more: seq<Record>)
    requires |records| == |rows| && forall i :: 0 <= i < |rows| ==> records[i].kind == kind && records[i].storage == rows[i]
    ensures |more| == |rows| + 1 && more[..|records|] == records && fresh(more[|records|])
    ensures forall i :: 0 <= i < |more| ==> more[i].kind == kind && more[i].storage == (rows + [row])[i]
  {
    var record := new Record(kind, row);
    more := records + [record];
  }

  /** `Result.models(_:)`: one record of the type per row, in the order of
      the rows; the first error ends the scan. */
  method RecordsOf(result: Result, kind: string) returns (r: Outcome<seq<Record>>)
    requires result.statement.live
    modifies result.statement
    ensures var rows := RowsOf(old(result.Pending()), result.columns, result.statement.db.sqlite.diagnose);
      && (rows.Fail? ==> r == Fail(rows.error))
      && (rows.Ok? ==>
            && r.Ok? && |r.value| == |rows.value|
            && forall i :: 0 <= i < |rows.value| ==>
                 fresh(r.value[i]) && r.value[i].kind == kind && r.value[i].storage == rows.value[i])
  {
    var records: seq<Record> := [];
    ghost var rows: seq<Row> := [];
    ghost var diagnose := result.statement.db.sqlite.diagnose;
    ghost var whole := result.Pending();
    assert Prefixed(rows, RowsOf(whole, result.columns, diagnose)) == RowsOf(whole, result.columns, diagnose) by {
      assert forall x: seq<Row> :: [] + x == x;
    }
    while true
      invariant result.statement.live
      invariant RowsOf(whole, result.columns, diagnose) == Prefixed(rows, RowsOf(result.Pending(), result.columns, diagnose))
      invariant |records| == |rows|
      invariant forall i :: 0 <= i < |rows| ==> fresh(records[i]) && records[i].kind == kind && records[i].storage == rows[i]
      decreases |result.Pending()|
    {
      ghost var tape := result.Pending();
      var more := result.Next();
      if more.Fail? {
        return Fail(more.error);
      }
      if !more.value {
        assert rows + [] == rows;
        return Ok(records);
      }
      var row := result.ReadRow();
      if row.Fail? {
        return Fail(row.error);
      }
      RowsOfStep(rows, row.value, tape, result.columns, diagnose);
      records := Adopt(records, rows, row.value, kind);
      rows := rows + [row.value];
    }
  }
}
