/** The SQLite engine behind one database handle, reduced to what the layer
    depends on. The database contents are the ordered log of statements that
    stepped to completion; beside it sits SQLite's stack of open save-points,
    each remembering the contents at the moment it was opened. Everything the
    engine decides on its own (whether a text compiles, what a statement's step
    answers, which rows a query yields) is a fixed function of the contents,
    bundled in `Sqlite`. */
module Engine {
  import opened Errors
  import opened Values

  /** A statement stepped against the engine: its SQL text and its bindings. */
  datatype Exec = Exec(sql: string, bindings: map<int, Value>)

  /** An open save-point: its name and the contents when it was opened. */
  datatype Frame = Frame(name: string, snapshot: seq<Exec>)

  /** What sqlite3_prepare_v3 reports for a text: the status, the name of each
      parameter slot (sqlite3_bind_parameter_name, None for an anonymous one),
      the name of each result column (sqlite3_column_name), and whether the
      text held a statement at all (for a text with no SQL in it the engine
      hands back no statement, so sqlite3_sql has nothing to return; otherwise
      sqlite3_sql returns the text as given). */
  datatype Compiled = Compiled(
    status: int,
    parameterNames: seq<Option<string>>,
    columnNames: seq<Option<string>>,
    hasStatement: bool)

  /** A type tag outside the five fundamental types. */
  type OtherTag = t: int | t < SQLITE_INTEGER || t > SQLITE_NULL

  /** One column of the current row, by its sqlite3_column_type, with what the
      matching accessor returns; a blob or text buffer may be nil. */
  datatype Cell =
    | IntegerCell(n: int64)
    | FloatCell(d: Double)
    | BlobCell(bytes: Option<seq<byte>>)
    | TextCell(text: Option<string>)
    | NullCell
    | OtherCell(tag: OtherTag)

  /** One answer of sqlite3_step for a query: the status and, for SQLITE_ROW,
      the cells of the row. */
  datatype Reply = Reply(status: int, cells: seq<Cell>)

  /** The engine's own decisions. */
  datatype Sqlite = Sqlite(
    stored: string -> seq<Exec>,                // contents found when a path is opened
    compile: string -> Compiled,                // sqlite3_prepare_v3
    verdict: (seq<Exec>, Exec) -> int,          // sqlite3_step of an ordinary statement
    evaluate: (seq<Exec>, Exec) -> seq<Reply>,  // the successive steps of a query
    lastRowId: seq<Exec> -> int64,              // sqlite3_last_insert_rowid
    diagnose: int -> Diagnostics,               // sqlite3_errmsg / extended_errcode
    bindStatus: BindCall -> int)                // sqlite3_bind_*

  // The normalised texts of the three save-point statements.
  function BeginSql(name: string): string { "SAVEPOINT " + name }
  function ReleaseSql(name: string): string { "RELEASE SAVEPOINT " + name }
  function RollbackSql(name: string): string { "ROLLBACK TO SAVEPOINT " + name }

  datatype Command =
    | BeginCommand(name: string)
    | ReleaseCommand(name: string)
    | RollbackCommand(name: string)
    | Plain

  predicate HasPrefix(s: string, p: string) {
    |p| <= |s| && s[..|p|] == p
  }

  /** How the engine reads a statement text. */
  function Classify(sql: string): Command {
    if HasPrefix(sql, "SAVEPOINT ") then BeginCommand(sql[10..])
    else if HasPrefix(sql, "RELEASE SAVEPOINT ") then ReleaseCommand(sql[18..])
    else if HasPrefix(sql, "ROLLBACK TO SAVEPOINT ") then RollbackCommand(sql[22..])
    else Plain
  }

  lemma ClassifySavepointSql(name: string)
    ensures Classify(BeginSql(name)) == BeginCommand(name)
    ensures Classify(ReleaseSql(name)) == ReleaseCommand(name)
    ensures Classify(RollbackSql(name)) == RollbackCommand(name)
  {
    assert BeginSql(name)[..10] == "SAVEPOINT ";
    assert ReleaseSql(name)[0] == 'R' && ReleaseSql(name)[..18] == "RELEASE SAVEPOINT ";
    assert RollbackSql(name)[0] == 'R' && RollbackSql(name)[1] == 'O';
    assert RollbackSql(name)[..22] == "ROLLBACK TO SAVEPOINT ";
  }

  datatype State = State(applied: seq<Exec>, savepoints: seq<Frame>)

  /** The most recent open save-point called `name`. */
  function Find(stack: seq<Frame>, name: string): (r: Option<nat>)
    ensures r.Some? ==> r.value < |stack| && stack[r.value].name == name
    ensures r.Some? ==> forall k :: r.value < k < |stack| ==> stack[k].name != name
    ensures r.None? ==> forall k :: 0 <= k < |stack| ==> stack[k].name != name
  {
    if stack == [] then None
    else if stack[|stack| - 1].name == name then Some(|stack| - 1)
    else Find(stack[..|stack| - 1], name)
  }

  /** One step of a statement that completes in one step. SAVEPOINT pushes a
      frame; RELEASE pops the named frame and every frame above it and keeps
      the contents; ROLLBACK TO restores the named frame's snapshot and pops
      the frames above it, leaving the named one open; an unknown name is an
      error. Any other statement is applied when its step answers DONE. */
  function StepSpec(st: State, e: Exec, verdict: (seq<Exec>, Exec) -> int): (int, State) {
    match Classify(e.sql)
    case BeginCommand(n) =>
      (SQLITE_DONE, State(st.applied, st.savepoints + [Frame(n, st.applied)]))
    case ReleaseCommand(n) =>
      (match Find(st.savepoints, n)
       case None => (SQLITE_ERROR, st)
       case Some(k) => (SQLITE_DONE, State(st.applied, st.savepoints[..k])))
    case RollbackCommand(n) =>
      (match Find(st.savepoints, n)
       case None => (SQLITE_ERROR, st)
       case Some(k) => (SQLITE_DONE, State(st.savepoints[k].snapshot, st.savepoints[..k + 1])))
    case Plain =>
      var status := verdict(st.applied, e);
      (status, if status == SQLITE_DONE then State(st.applied + [e], st.savepoints) else st)
  }

  /** A save-point statement never fails on a name that is open, and a plain
      statement only changes the contents by appending itself when it is done. */
  lemma StepSpecShape(st: State, e: Exec, verdict: (seq<Exec>, Exec) -> int)
    ensures var (status, st') := StepSpec(st, e, verdict);
      && (status == SQLITE_DONE || st' == st)
      && (Classify(e.sql).Plain? ==> st'.savepoints == st.savepoints)
      && (Classify(e.sql).Plain? && status == SQLITE_DONE ==> st'.applied == st.applied + [e])
      && (Classify(e.sql).BeginCommand? ==> status == SQLITE_DONE && st'.applied == st.applied)
      && (Classify(e.sql).ReleaseCommand? ==> st'.applied == st.applied)
  {
  }

  /** RELEASE keeps every change made since the save-point opened. */
  lemma ReleaseKeeps(st: State, name: string, b: map<int, Value>, verdict: (seq<Exec>, Exec) -> int)
    requires Find(st.savepoints, name).Some?
    ensures var k := Find(st.savepoints, name).value;
      StepSpec(st, Exec(ReleaseSql(name), b), verdict) == (SQLITE_DONE, State(st.applied, st.savepoints[..k]))
  {
    ClassifySavepointSql(name);
  }

  /** ROLLBACK TO brings the contents back to the save-point's snapshot and
      leaves that save-point open on the stack. */
  lemma RollbackRestores(st: State, name: string, b: map<int, Value>, verdict: (seq<Exec>, Exec) -> int)
    requires Find(st.savepoints, name).Some?
    ensures var k := Find(st.savepoints, name).value;
      var (status, st') := StepSpec(st, Exec(RollbackSql(name), b), verdict);
      && status == SQLITE_DONE
      && st'.applied == st.savepoints[k].snapshot
      && st'.savepoints == st.savepoints[..k + 1]
      && st'.savepoints[k].name == name
  {
    ClassifySavepointSql(name);
  }

  /** The handle: a live SQLite database. */
  class Engine {
    const sqlite: Sqlite
    var applied: seq<Exec>
    var savepoints: seq<Frame>

    /** sqlite3_open_v2 succeeding on `path`. */
    constructor (sqlite: Sqlite, path: string)
      ensures this.sqlite == sqlite
      ensures applied == sqlite.stored(path) && savepoints == []
    {
      this.sqlite := sqlite;
      applied := sqlite.stored(path);
      savepoints := [];
    }

    function Snapshot(): State
      reads this
    {
      State(applied, savepoints)
    }

    /** sqlite3_step of a statement that completes in one step. */
    method Step(e: Exec) returns (status: int)
      modifies this
      ensures (status, Snapshot()) == StepSpec(old(Snapshot()), e, sqlite.verdict)
    {
      var (s, st) := StepSpec(Snapshot(), e, sqlite.verdict);
      status := s;
      applied, savepoints := st.applied, st.savepoints;
    }
  }
}
