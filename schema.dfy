/** Table schemas (Schema.swift): column options and their two encodings,
    the SQL text of columns, foreign keys, tables and indices, the schema a
    table is built from, and the migration that creates it. */
module Schemas {
  import opened Errors
  import opened Values
  import opened Text
  import opened Engine
  import opened Statements
  import opened Connections
  import opened Databases

  /** `Column.StorageClass`, with its raw value. */
  datatype StorageClass = NullStorage | IntegerStorage | RealStorage | TextStorage | BlobStorage

  function StorageName(s: StorageClass): (r: string)
    ensures r != [] && r[0] !in WhitespacesAndNewlines && r[|r| - 1] !in WhitespacesAndNewlines
  {
    match s
    case NullStorage => "NULL"
    case IntegerStorage => "INTEGER"
    case RealStorage => "REAL"
    case TextStorage => "TEXT"
    case BlobStorage => "BLOB"
  }

  /** `Column.Options`: an 8-bit option set. */
  datatype Options = Options(raw: bv8)

  const NoOptions := Options(0)
  const NotNull := Options(1 << 0)
  const Unique := Options(1 << 1)
  const PrimaryKey := Options(1 << 2)
  const PrimaryKeyAutoIncrement := Options(1 << 3)

  predicate Has(o: Options, flag: Options) {
    o.raw & flag.raw == flag.raw
  }

  function Union(a: Options, b: Options): Options {
    Options(a.raw | b.raw)
  }

  /** `encode(to:)`: the names of the options that are set, in a fixed
      order. */
  function Encode(o: Options): seq<string> {
    (if Has(o, NotNull) then ["not null"] else [])
    + (if Has(o, PrimaryKeyAutoIncrement) then ["primary key auto"] else [])
    + (if Has(o, PrimaryKey) then ["primary key"] else [])
    + (if Has(o, Unique) then ["unique"] else [])
  }

  /** The encoding names exactly the options that are set, and nothing else. */
  lemma EncodeNames(o: Options)
    ensures var tags := Encode(o);
      && ("not null" in tags <==> Has(o, NotNull))
      && ("primary key auto" in tags <==> Has(o, PrimaryKeyAutoIncrement))
      && ("primary key" in tags <==> Has(o, PrimaryKey))
      && ("unique" in tags <==> Has(o, Unique))
      && forall t :: t in tags ==> t in ["not null", "primary key auto", "primary key", "unique"]
  {
  }

  /** `init(from:)`: every known name that occurs sets its option; anything
      else is ignored. */
  function Decode(tags: seq<string>): (o: Options)
    ensures Has(o, NotNull) <==> "not null" in tags
    ensures Has(o, PrimaryKeyAutoIncrement) <==> "primary key auto" in tags
    ensures Has(o, PrimaryKey) <==> "primary key" in tags
    ensures Has(o, Unique) <==> "unique" in tags
    ensures o.raw & 0xF0 == 0
  {
    var n: bv8 := if "not null" in tags then NotNull.raw else 0;
    var a: bv8 := if "primary key auto" in tags then PrimaryKeyAutoIncrement.raw else 0;
    var p: bv8 := if "primary key" in tags then PrimaryKey.raw else 0;
    var u: bv8 := if "unique" in tags then Unique.raw else 0;
    Options(n | u | p | a)
  }

  /** Decoding an encoded option set gives it back, less any bit outside the
      four named options. */
  lemma DecodeEncode(o: Options)
    ensures Decode(Encode(o)) == Options(o.raw & 0x0F)
  {
    EncodeNames(o);
    var d := Decode(Encode(o));
    assert d.raw & 1 == o.raw & 1;
    assert d.raw & 2 == o.raw & 2;
    assert d.raw & 4 == o.raw & 4;
    assert d.raw & 8 == o.raw & 8;
  }

  /** Where each phrase of `Options.sql` goes. */
  function Rank(phrase: string): nat {
    if phrase == "NOT NULL" then 0 else if phrase == "UNIQUE" then 2 else 1
  }

  /** The phrases of `Options.sql`: NOT NULL, then one primary-key phrase
      (AUTOINCREMENT wins over the plain one), then UNIQUE. */
  function SqlParts(o: Options): seq<string> {
    (if Has(o, NotNull) then ["NOT NULL"] else [])
    + (if Has(o, PrimaryKeyAutoIncrement) then ["PRIMARY KEY AUTOINCREMENT"]
       else if Has(o, PrimaryKey) then ["PRIMARY KEY"] else [])
    + (if Has(o, Unique) then ["UNIQUE"] else [])
  }

  /** Each option set contributes its phrase, a plain primary key only
      without AUTOINCREMENT, in the fixed order, and nothing else. */
  lemma SqlPartsPhrases(o: Options)
    ensures var parts := SqlParts(o);
      && ("NOT NULL" in parts <==> Has(o, NotNull))
      && ("PRIMARY KEY AUTOINCREMENT" in parts <==> Has(o, PrimaryKeyAutoIncrement))
      && ("PRIMARY KEY" in parts <==> Has(o, PrimaryKey) && !Has(o, PrimaryKeyAutoIncrement))
      && ("UNIQUE" in parts <==> Has(o, Unique))
      && (forall i, j :: 0 <= i < j < |parts| ==> Rank(parts[i]) < Rank(parts[j]))
      && forall i :: 0 <= i < |parts| ==> parts[i] in ["NOT NULL", "PRIMARY KEY AUTOINCREMENT", "PRIMARY KEY", "UNIQUE"]
  {
  }

  /** `Options.sql`. */
  function OptionsSql(o: Options): string {
    Join(SqlParts(o), " ")
  }

  /** `Options.sql` is empty exactly when none of the four options is set. */
  lemma OptionsSqlEmpty(o: Options)
    ensures SqlParts(o) == [] <==> o.raw & 0x0F == 0
    ensures SqlParts(o) == [] ==> OptionsSql(o) == ""
  {
    assert o.raw & 0x0F == 0 <==> o.raw & 1 == 0 && o.raw & 2 == 0 && o.raw & 4 == 0 && o.raw & 8 == 0;
  }

  /** The phrase starts and ends with a character trimming keeps. */
  predicate Solid(p: string) {
    p != [] && p[0] !in WhitespacesAndNewlines && p[|p| - 1] !in WhitespacesAndNewlines
  }

  /** A non-empty `Options.sql` neither starts nor ends with white space. */
  lemma OptionsSqlEnds(o: Options)
    requires SqlParts(o) != []
    ensures Solid(OptionsSql(o))
  {
    var parts := SqlParts(o);
    SqlPartsPhrases(o);
    assert Solid("NOT NULL") && Solid("PRIMARY KEY AUTOINCREMENT") && Solid("PRIMARY KEY") && Solid("UNIQUE");
    assert Solid(parts[0]) && Solid(parts[|parts| - 1]);
    JoinEnds(parts, " ");
  }

  datatype Column = Column(name: string, storage: StorageClass, options: Options)

  function Quote(s: string): string {
    Escape(s)
  }

  /** `Column.sql`: the quoted name, the storage class and the options,
      trimmed. */
  function ColumnSql(c: Column): string {
    Trim(ColumnHead(c) + " " + OptionsSql(c.options), WhitespacesAndNewlines)
  }

  /** Trimming `head + " " + tail` for solid ends drops the separator only
      when `tail` is empty. */
  lemma TrimJoined(head: string, tail: string)
    requires Solid(head) && (tail == [] || Solid(tail))
    ensures Trim(head + " " + tail, WhitespacesAndNewlines) == if tail == [] then head else head + " " + tail
  {
    if tail == [] {
      assert head + " " + tail == head + " ";
      TrimDropsTail(head, " ", WhitespacesAndNewlines);
    } else {
      var s := head + " " + tail;
      assert s[0] == head[0] && s[|s| - 1] == tail[|tail| - 1];
      TrimKeeps(s, WhitespacesAndNewlines);
    }
  }

  /** The quoted name and storage class of a column. */
  function ColumnHead(c: Column): (r: string)
    ensures Solid(r)
  {
    var name := StorageName(c.storage);
    var r := "\"" + c.name + "\" " + name;
    assert r[0] == '"' && r[|r| - 1] == name[|name| - 1];
    r
  }

  /** A column with options: the trimming keeps the whole text. */
  lemma ColumnSqlWithOptions(c: Column)
    requires SqlParts(c.options) != []
    ensures ColumnSql(c) == ColumnHead(c) + " " + OptionsSql(c.options)
  {
    OptionsSqlEnds(c.options);
    TrimJoined(ColumnHead(c), OptionsSql(c.options));
  }

  /** A column without options: the trimming drops the trailing separator,
      and only it. */
  lemma ColumnSqlWithoutOptions(c: Column)
    requires SqlParts(c.options) == []
    ensures ColumnSql(c) == ColumnHead(c)
  {
    TrimJoined(ColumnHead(c), OptionsSql(c.options));
  }

  datatype Index = Index(name: string, columns: seq<string>, isUnique: bool)

  /** `ForeignKey.Action`, with its raw value. */
  datatype Action = NoAction | Cascade | SetNull | SetDefault | Restrict

  function ActionName(a: Action): string {
    match a
    case NoAction => "NO ACTION"
    case Cascade => "CASCADE"
    case SetNull => "SET NULL"
    case SetDefault => "SET DEFAULT"
    case Restrict => "RESTRICT"
  }

  datatype ForeignKey = ForeignKey(parentTable: string, parentKey: string, childKey: string,
                                   isDeferrable: bool, onDelete: Action, onUpdate: Action)

  const Deferred := " DEFERRABLE INITIALLY DEFERRED"

  /** The reference part of `ForeignKey.sql`. */
  function Reference(fk: ForeignKey): string {
    "FOREIGN KEY(" + Quote(fk.childKey) + ") REFERENCES " + Quote(fk.parentTable) + "(" + Quote(fk.parentKey) + ")"
  }

  /** The two referential actions, always present. */
  function Actions(fk: ForeignKey): string {
    " ON DELETE " + ActionName(fk.onDelete) + " ON UPDATE " + ActionName(fk.onUpdate)
  }

  /** `ForeignKey.sql`: the reference, the deferral clause exactly when the
      key is deferrable, and both actions. */
  function ForeignKeySql(fk: ForeignKey): (r: string)
    ensures |r| == |Reference(fk)| + (if fk.isDeferrable then |Deferred| else 0) + |Actions(fk)|
    ensures r[..|Reference(fk)|] == Reference(fk)
    ensures r[|r| - |Actions(fk)|..] == Actions(fk)
    ensures fk.isDeferrable <==> |r| > |Reference(fk)| + |Actions(fk)|
  {
    var sql := Reference(fk);
    var sql := if fk.isDeferrable then sql + Deferred else sql;
    sql + Actions(fk)
  }

  /** Deferral changes nothing but the deferral clause. */
  lemma DeferralOnlyAddsClause(fk: ForeignKey)
    ensures ForeignKeySql(fk.(isDeferrable := true)) == Reference(fk) + Deferred + Actions(fk)
    ensures ForeignKeySql(fk.(isDeferrable := false)) == Reference(fk) + Actions(fk)
  {
  }

  function ColumnSqls(columns: seq<Column>): (r: seq<string>)
    ensures |r| == |columns| && forall i :: 0 <= i < |columns| ==> r[i] == ColumnSql(columns[i])
  {
    if columns == [] then [] else [ColumnSql(columns[0])] + ColumnSqls(columns[1..])
  }

  function ForeignKeySqls(keys: seq<ForeignKey>): (r: seq<string>)
    ensures |r| == |keys| && forall i :: 0 <= i < |keys| ==> r[i] == ForeignKeySql(keys[i])
  {
    if keys == [] then [] else [ForeignKeySql(keys[0])] + ForeignKeySqls(keys[1..])
  }

  /** The definitions of CREATE TABLE: every column, then every foreign key. */
  function Definitions(columns: seq<Column>, keys: seq<ForeignKey>): seq<string> {
    ColumnSqls(columns) + ForeignKeySqls(keys)
  }

  /** The text `createTableStatement` prepares. */
  function CreateTableSql(tableName: string, columns: seq<Column>, keys: seq<ForeignKey>): string {
    "CREATE TABLE " + Quote(tableName) + " (" + Join(Definitions(columns, keys), ", ") + ");"
  }

  /** The text `statements` prepares for one index. */
  function IndexSql(tableName: string, index: Index): string {
    "CREATE" + (if index.isUnique then " UNIQUE " else " ") + "INDEX " + Quote(index.name)
      + " ON " + Quote(tableName) + "(" + Join(EscapeAll(index.columns), ", ") + ");"
  }

  function IndexSqls(tableName: string, indices: seq<Index>): (r: seq<string>)
    ensures |r| == |indices| && forall i :: 0 <= i < |indices| ==> r[i] == IndexSql(tableName, indices[i])
  {
    if indices == [] then [] else [IndexSql(tableName, indices[0])] + IndexSqls(tableName, indices[1..])
  }

  /** The name of a table's migration. */
  function MigrationName(tableName: string): (r: string)
    ensures |r| == 7 + |tableName| && r[..7] == "CREATE_" && r[7..] == tableName
  {
    "CREATE_" + tableName
  }

  /** `TableSchema`: a table name and the columns, indices and foreign keys
      added to it, in the order they were added. */
  class TableSchema {
    const tableName: string
    var columns: seq<Column>
    var indices: seq<Index>
    var foreignKeys: seq<ForeignKey>

    constructor (tableName: string)
      ensures this.tableName == tableName && columns == [] && indices == [] && foreignKeys == []
    {
      this.tableName := tableName;
      columns := [];
      indices := [];
      foreignKeys := [];
    }

    method AddColumn(name: string, storage: StorageClass, options: Options := NoOptions)
      modifies this
      ensures columns == old(columns) + [Column(name, storage, options)]
      ensures indices == old(indices) && foreignKeys == old(foreignKeys)
    {
      columns := columns + [Column(name, storage, options)];
    }

    method AddIndex(name: string, columns: seq<string>, isUnique: bool := false)
      modifies this
      ensures indices == old(indices) + [Index(name, columns, isUnique)]
      ensures this.columns == old(this.columns) && foreignKeys == old(foreignKeys)
    {
      indices := indices + [Index(name, columns, isUnique)];
    }

    /** `add(foreignKey:parent:...)`, with its defaults: the parent's rowid,
        no action either way, not deferrable. */
    method AddForeignKey(key: string, parent: string, parentKey: string := "rowid", isDeferrable: bool := false,
                         onDelete: Action := NoAction, onUpdate: Action := NoAction)
      modifies this
      ensures foreignKeys == old(foreignKeys) + [ForeignKey(parent, parentKey, key, isDeferrable, onDelete, onUpdate)]
      ensures columns == old(columns) && indices == old(indices)
    {
      foreignKeys := foreignKeys + [ForeignKey(parent, parentKey, key, isDeferrable, onDelete, onUpdate)];
    }
  }

  /** The first text of `texts` the engine does not accept, if any. */
  function FirstRejected(sqlite: Sqlite, texts: seq<string>): (r: Option<Error>)
    ensures r.None? <==> forall i :: 0 <= i < |texts| ==> PrepareOutcome(sqlite, texts[i]).Ok?
    decreases |texts|
  {
    if texts == [] then None
    else
      var rest := FirstRejected(sqlite, texts[..|texts| - 1]);
      if rest.Some? then rest
      else if PrepareOutcome(sqlite, texts[|texts| - 1]).Fail? then Some(PrepareOutcome(sqlite, texts[|texts| - 1]).error)
      else None
  }

  /** The rejection `FirstRejected` reports is that of the first text that
      fails to prepare, and every text before it prepares. */
  lemma {:induction false} FirstRejectedIsFirst(sqlite: Sqlite, texts: seq<string>)
    requires FirstRejected(sqlite, texts).Some?
    ensures exists i :: 0 <= i < |texts| && PrepareOutcome(sqlite, texts[i]) == Fail(FirstRejected(sqlite, texts).value)
                      && forall j :: 0 <= j < i ==> PrepareOutcome(sqlite, texts[j]).Ok?
    decreases |texts|
  {
    var init := texts[..|texts| - 1];
    if FirstRejected(sqlite, init).Some? {
      FirstRejectedIsFirst(sqlite, init);
      var i :| 0 <= i < |init| && PrepareOutcome(sqlite, init[i]) == Fail(FirstRejected(sqlite, init).value)
                && forall j :: 0 <= j < i ==> PrepareOutcome(sqlite, init[j]).Ok?;
      assert texts[i] == init[i];
      assert forall j :: 0 <= j < i ==> texts[j] == init[j];
    } else {
      var i := |texts| - 1;
      assert forall j :: 0 <= j < i ==> texts[j] == init[j];
    }
  }

  /** Once a prefix has a rejected text, so has every longer list, and it is
      the same one. */
  lemma {:induction false} FirstRejectedExtends(sqlite: Sqlite, texts: seq<string>, n: nat)
    requires n <= |texts| && FirstRejected(sqlite, texts[..n]).Some?
    ensures FirstRejected(sqlite, texts) == FirstRejected(sqlite, texts[..n])
    decreases |texts| - n
  {
    if n < |texts| {
      assert texts[..n + 1][..n] == texts[..n];
      FirstRejectedExtends(sqlite, texts, n + 1);
    } else {
      assert texts[..n] == texts;
    }
  }

  /** Execute prepared texts in order, stopping at the first failure; the
      events are one `updated` per statement that succeeded. */
  function RunAll(sqlite: Sqlite, st: State, texts: seq<string>): (Outcome<()>, State, seq<EventName>)
    decreases |texts|
  {
    if texts == [] then (Ok(()), st, [])
    else
      var (r, s, ev) := RunAll(sqlite, st, texts[..|texts| - 1]);
      if r.Fail? then (r, s, ev)
      else
        var (r', s') := ExecuteEffect(sqlite, s, texts[|texts| - 1], map[]);
        (r', s', ev + if r'.Ok? then [Updated] else [])
  }

  /** One more text after a prefix that succeeded: its effect is the
      engine's answer to it. */
  lemma RunAllNext(sqlite: Sqlite, start: State, texts: seq<string>, i: nat, before: State, events: seq<EventName>,
                   done: Outcome<()>, after: State)
    requires i < |texts| && RunAll(sqlite, start, texts[..i]) == (Ok(()), before, events)
    requires (done, after) == ExecuteEffect(sqlite, before, texts[i], map[])
    ensures RunAll(sqlite, start, texts[..i + 1]) == (done, after, events + if done.Ok? then [Updated] else [])
  {
    assert texts[..i + 1][..i] == texts[..i];
  }

  /** Once a prefix has failed, the rest of the texts are never run. */
  lemma {:induction false} RunAllStops(sqlite: Sqlite, st: State, texts: seq<string>, n: nat)
    requires n <= |texts| && RunAll(sqlite, st, texts[..n]).0.Fail?
    ensures RunAll(sqlite, st, texts) == RunAll(sqlite, st, texts[..n])
    decreases |texts| - n
  {
    if n < |texts| {
      assert texts[..n + 1][..n] == texts[..n];
      RunAllStops(sqlite, st, texts, n + 1);
    } else {
      assert texts[..n] == texts;
    }
  }

  /** The statements the engine applies for `texts`, in order. */
  function Execs(texts: seq<string>): (r: seq<Exec>)
    ensures |r| == |texts|
    decreases |texts|
  {
    if texts == [] then [] else Execs(texts[..|texts| - 1]) + [Exec(Trim(texts[|texts| - 1], Cleanup), map[])]
  }

  /** For texts that are not save-point commands, running them all applies
      each in order, publishes one `updated` per text, and leaves the open
      save-points alone; a failure keeps what was applied before it. */
  lemma {:induction false} RunAllApplies(sqlite: Sqlite, st: State, texts: seq<string>)
    requires forall i :: 0 <= i < |texts| ==> Classify(Trim(texts[i], Cleanup)).Plain?
    ensures var (r, s, ev) := RunAll(sqlite, st, texts);
      && s.savepoints == st.savepoints
      && |st.applied| <= |s.applied| && s.applied[..|st.applied|] == st.applied
      && (r.Ok? ==> s.applied == st.applied + Execs(texts) && ev == Updates(|texts|))
    decreases |texts|
  {
    if texts != [] {
      var init := texts[..|texts| - 1];
      assert forall i :: 0 <= i < |init| ==> init[i] == texts[i];
      RunAllApplies(sqlite, st, init);
      var (r, s, ev) := RunAll(sqlite, st, init);
      if r.Ok? {
        var e := Exec(Trim(texts[|texts| - 1], Cleanup), map[]);
        StepSpecShape(s, e, sqlite.verdict);
        var (r', s') := ExecuteEffect(sqlite, s, texts[|texts| - 1], map[]);
        if r'.Ok? {
          assert s'.applied == s.applied + [e];
          assert st.applied + Execs(init) + [e] == st.applied + Execs(texts);
          assert (s.applied + [e])[..|st.applied|] == s.applied[..|st.applied|];
        }
      }
    }
  }

  /** `n` times `updated`. */
  function Updates(n: nat): (r: seq<EventName>)
    ensures |r| == n && forall e <- r :: e == Updated
  {
    if n == 0 then [] else Updates(n - 1) + [Updated]
  }

  /** `SchemaMigration.migrate`: create the table, then prepare every index
      statement, then execute them in order. */
  function MigrateSpec(sqlite: Sqlite, st: State, create: string, indexTexts: seq<string>): (Outcome<()>, State, seq<EventName>) {
    var (c, s) := PrepareExecute(sqlite, st, create);
    if c.Fail? then (c, s, [])
    else
      var rejected := FirstRejected(sqlite, indexTexts);
      if rejected.Some? then (Fail(rejected.value), s, [Updated])
      else
        var (r, s', ev) := RunAll(sqlite, s, indexTexts);
        (r, s', [Updated] + ev)
  }

  /** A migration of texts that are not save-point commands: when it
      succeeds the table statement and then every index statement have been
      applied, in order, and one `updated` is published for each; when the
      table statement fails nothing changes; when an index text is rejected
      only the table statement has been applied. */
  lemma MigrateApplies(sqlite: Sqlite, st: State, create: string, indexTexts: seq<string>)
    requires Classify(Trim(create, Cleanup)).Plain?
    requires forall i :: 0 <= i < |indexTexts| ==> Classify(Trim(indexTexts[i], Cleanup)).Plain?
    ensures var (r, s, ev) := MigrateSpec(sqlite, st, create, indexTexts);
      var table := Exec(Trim(create, Cleanup), map[]);
      && s.savepoints == st.savepoints
      && (PrepareExecute(sqlite, st, create).0.Fail? ==> s == st && ev == [])
      && (PrepareExecute(sqlite, st, create).0.Ok? && FirstRejected(sqlite, indexTexts).Some? ==>
            r.Fail? && s.applied == st.applied + [table] && ev == [Updated])
      && (r.Ok? ==> s.applied == st.applied + [table] + Execs(indexTexts) && ev == Updates(1 + |indexTexts|))
  {
    var table := Exec(Trim(create, Cleanup), map[]);
    StepSpecShape(st, table, sqlite.verdict);
    var (c, s) := PrepareExecute(sqlite, st, create);
    if c.Ok? {
      assert s == State(st.applied + [table], st.savepoints);
      RunAllApplies(sqlite, s, indexTexts);
      var (r, s', ev) := RunAll(sqlite, s, indexTexts);
      assert [Updated] + Updates(|indexTexts|) == Updates(1 + |indexTexts|) by {
        UpdatesPrepend(|indexTexts|);
      }
    }
  }

  lemma UpdatesPrepend(n: nat)
    ensures [Updated] + Updates(n) == Updates(1 + n)
  {
    var a := [Updated] + Updates(n);
    var b := Updates(1 + n);
    assert |a| == |b|;
    forall i | 0 <= i < |a|
      ensures a[i] == b[i]
    {
      assert b[i] in b;
      if i > 0 {
        assert a[i] == Updates(n)[i - 1] && Updates(n)[i - 1] in Updates(n);
      }
    }
  }

  /** The statements a table's indices prepare, as the engine holds them. */
  predicate Prepared(stmts: seq<Statement>, db: Engine, texts: seq<string>)
    reads stmts
  {
    && |stmts| == |texts|
    && (forall k :: 0 <= k < |stmts| ==>
          stmts[k].live && stmts[k].db == db && stmts[k].sql == Trim(texts[k], Cleanup) && stmts[k].bindings == map[])
    && (forall a, b :: 0 <= a < b < |stmts| ==> stmts[a] != stmts[b])
  }

  /** The loop of `statements(_:)`: prepare every text in order; the first
      text the engine rejects ends the loop with its error. */
  method PrepareAll(conn: Connection, texts: seq<string>) returns (r: Outcome<seq<Statement>>)
    ensures conn.handle == null ==> r == if texts == [] then Ok([]) else Fail(Unopened)
    ensures conn.handle != null ==>
      var rejected := FirstRejected(conn.handle.sqlite, texts);
      && (rejected.Some? ==> r == Fail(rejected.value))
      && (rejected.None? ==> r.Ok? && Prepared(r.value, conn.handle, texts)
                             && forall k :: 0 <= k < |r.value| ==> fresh(r.value[k]))
  {
    var stmts: seq<Statement> := [];
    var i := 0;
    while i < |texts|
      invariant 0 <= i <= |texts|
      invariant conn.handle != null ==> FirstRejected(conn.handle.sqlite, texts[..i]).None?
      invariant conn.handle != null ==> Prepared(stmts, conn.handle, texts[..i])
      invariant conn.handle == null ==> i == 0 && stmts == []
      invariant forall k :: 0 <= k < |stmts| ==> fresh(stmts[k])
    {
      var prepared := conn.Prepare(texts[i]);
      assert texts[..i + 1][..i] == texts[..i];
      if prepared.Fail? {
        if conn.handle != null {
          FirstRejectedExtends(conn.handle.sqlite, texts, i + 1);
        }
        return Fail(prepared.error);
      }
      assert texts[..i + 1][i] == texts[i];
      stmts := stmts + [prepared.value];
      i := i + 1;
    }
    assert texts[..i] == texts;
    r := Ok(stmts);
  }

  /** The loop of `migrate(in:)` over the prepared index statements:
      execute each in order, stopping at the first failure. */
  method ExecuteAll(conn: Connection, list: seq<Statement>, ghost texts: seq<string>) returns (r: Outcome<()>)
    requires conn.handle != null && Prepared(list, conn.handle, texts)
    modifies conn, conn.handle, list
    ensures conn.handle == old(conn.handle) && conn.spCounter == old(conn.spCounter)
    ensures var (out, st, ev) := RunAll(conn.handle.sqlite, old(conn.handle.Snapshot()), texts);
      r == out && conn.handle.Snapshot() == st && conn.events == old(conn.events) + ev
  {
    ghost var start := conn.handle.Snapshot();
    var i := 0;
    while i < |list|
      invariant 0 <= i <= |list|
      invariant conn.handle == old(conn.handle) && conn.spCounter == old(conn.spCounter)
      invariant Prepared(list, conn.handle, texts)
      invariant RunAll(conn.handle.sqlite, start, texts[..i]).0.Ok?
      invariant RunAll(conn.handle.sqlite, start, texts[..i]).1 == conn.handle.Snapshot()
      invariant conn.events == old(conn.events) + RunAll(conn.handle.sqlite, start, texts[..i]).2
    {
      ghost var before := conn.handle.Snapshot();
      ghost var events := conn.events;
      var done := conn.Execute(list[i]);
      RunAllNext(conn.handle.sqlite, start, texts, i, before, RunAll(conn.handle.sqlite, start, texts[..i]).2, done, conn.handle.Snapshot());
      if done.Fail? {
        RunAllStops(conn.handle.sqlite, start, texts, i + 1);
        return done;
      }
      i := i + 1;
    }
    assert texts[..i] == texts;
    r := Ok(());
  }

  /** The body of `migrate(in:)` for a table text and its index texts. */
  method MigrateTexts(conn: Connection, create: string, indexTexts: seq<string>) returns (r: Outcome<()>)
    modifies conn, conn.handle
    ensures conn.handle == old(conn.handle) && conn.spCounter == old(conn.spCounter)
    ensures conn.handle == null ==> r == Fail(Unopened) && conn.events == old(conn.events)
    ensures conn.handle != null ==>
      var (out, st, ev) := MigrateSpec(conn.handle.sqlite, old(conn.handle.Snapshot()), create, indexTexts);
      r == out && conn.handle.Snapshot() == st && conn.events == old(conn.events) + ev
  {
    r := PrepareAndExecute(conn, create);
    if r.Fail? {
      return;
    }
    var stmts := PrepareAll(conn, indexTexts);
    if stmts.Fail? {
      return Fail(stmts.error);
    }
    r := ExecuteAll(conn, stmts.value, indexTexts);
  }

  /** `SchemaMigration.migrate(in:)`: prepare and execute CREATE TABLE, then
      prepare every index statement, then execute them in order. */
  method Migrate(conn: Connection, schema: TableSchema) returns (r: Outcome<()>)
    modifies conn, conn.handle
    ensures conn.handle == old(conn.handle) && conn.spCounter == old(conn.spCounter)
    ensures conn.handle == null ==> r == Fail(Unopened) && conn.events == old(conn.events)
    ensures conn.handle != null ==>
      var (out, st, ev) := MigrateSpec(conn.handle.sqlite, old(conn.handle.Snapshot()),
                                       CreateTableSql(schema.tableName, schema.columns, schema.foreignKeys),
                                       IndexSqls(schema.tableName, schema.indices));
      r == out && conn.handle.Snapshot() == st && conn.events == old(conn.events) + ev
  {
    r := MigrateTexts(conn, CreateTableSql(schema.tableName, schema.columns, schema.foreignKeys),
                      IndexSqls(schema.tableName, schema.indices));
  }
}
