/** A connection to one database (Connection.swift): the handle that `open`
    sets and `close` clears, the guards every entry point runs first, the
    translation of open options into the engine's flags, the event log, and
    the counter that names save-points. */
module Connections {
  import opened Errors
  import opened Values
  import opened Text
  import opened Engine
  import opened Statements
  import opened Results

  /** `Source`: an in-memory database or a file URL, by its absolute string. */
  datatype Source = Memory | Location(absoluteString: string)

  /** The path handed to sqlite3_open_v2. */
  function PathOf(source: Source): (path: string)
    ensures source.Memory? ==> path == ":memory:"
    ensures source.Location? ==> path == source.absoluteString
  {
    match source
    case Memory => ":memory:"
    case Location(s) => s
  }

  /** `Connection.Event.Name`, including the three save-point names. */
  datatype EventName =
    | Opened | Closed | Updated | Committed | RolledBack
    | SavepointBegin | SavepointRelease | SavepointRollback

  /** The raw value each event name carries; names compare by it. */
  function RawName(e: EventName): string {
    match e
    case Opened => "conn_opened"
    case Closed => "conn_closed"
    case Updated => "db_updated"
    case Committed => "tx_committed"
    case RolledBack => "tx_rolledback"
    case SavepointBegin => "sp_begin"
    case SavepointRelease => "sp_release"
    case SavepointRollback => "sp_rollback"
  }

  /** What the connection asked of the engine library. */
  datatype EngineCall = OpenCall(path: string, flags: bv32) | CloseCall

  // `OpenFlag` options, as written. noMutex and privateCache occupy the same bit.
  datatype OpenFlag = OpenFlag(raw: bv64)

  const Create := OpenFlag(1 << 0)
  const ReadWrite := OpenFlag(1 << 1)
  const ReadOnly := OpenFlag(1 << 2)
  const NoMutex := OpenFlag(1 << 3)
  const PrivateCacheAsWritten := OpenFlag(1 << 3)
  /** The privateCache option on a bit of its own. */
  const PrivateCache := OpenFlag(1 << 4)

  /** `OpenFlag.default`: create, read-write, no mutex, private cache, with
      privateCache on the bit the source gives it (raw value 0b1011). */
  const DefaultFlags := OpenFlag(Create.raw | ReadWrite.raw | NoMutex.raw | PrivateCacheAsWritten.raw)

  /** The default set with privateCache on a bit of its own. */
  const DefaultFlagsSeparated := OpenFlag(Create.raw | ReadWrite.raw | NoMutex.raw | PrivateCache.raw)

  predicate Contains(flags: OpenFlag, option: OpenFlag) {
    flags.raw & option.raw == option.raw
  }

  // The engine's open flags.
  const SQLITE_OPEN_READONLY: bv32 := 0x0000_0001
  const SQLITE_OPEN_READWRITE: bv32 := 0x0000_0002
  const SQLITE_OPEN_CREATE: bv32 := 0x0000_0004
  const SQLITE_OPEN_NOMUTEX: bv32 := 0x0000_8000
  const SQLITE_OPEN_PRIVATECACHE: bv32 := 0x0004_0000

  /** `sqlFlags`, with the privateCache option on bit `privateCache`: each
      option adds its engine flag, and readOnly wins over readWrite. */
  function OpenBits(flags: OpenFlag, privateCache: OpenFlag): bv32 {
    var create: bv32 := if Contains(flags, Create) then SQLITE_OPEN_CREATE else 0;
    var access: bv32 := if Contains(flags, ReadOnly) then SQLITE_OPEN_READONLY
      else if Contains(flags, ReadWrite) then SQLITE_OPEN_READWRITE else 0;
    var mutex: bv32 := if Contains(flags, NoMutex) then SQLITE_OPEN_NOMUTEX else 0;
    var cache: bv32 := if Contains(flags, privateCache) then SQLITE_OPEN_PRIVATECACHE else 0;
    create | access | mutex | cache
  }

  /** Each engine flag is set exactly when its option asks for it; the access
      mode is read-only or read-write, never both. */
  lemma OpenBitsExact(flags: OpenFlag, privateCache: OpenFlag)
    ensures var b := OpenBits(flags, privateCache);
      && (b & SQLITE_OPEN_CREATE != 0 <==> Contains(flags, Create))
      && (b & SQLITE_OPEN_READONLY != 0 <==> Contains(flags, ReadOnly))
      && (b & SQLITE_OPEN_READWRITE != 0 <==> !Contains(flags, ReadOnly) && Contains(flags, ReadWrite))
      && (b & SQLITE_OPEN_NOMUTEX != 0 <==> Contains(flags, NoMutex))
      && (b & SQLITE_OPEN_PRIVATECACHE != 0 <==> Contains(flags, privateCache))
      && b & !(SQLITE_OPEN_CREATE | SQLITE_OPEN_READONLY | SQLITE_OPEN_READWRITE | SQLITE_OPEN_NOMUTEX | SQLITE_OPEN_PRIVATECACHE) == 0
  {
  }

  /** As written, asking for noMutex alone also asks the engine for a
      private cache; the default set still asks for all four flags. */
  lemma NoMutexImpliesPrivateCache()
    ensures OpenBits(NoMutex, PrivateCacheAsWritten) & SQLITE_OPEN_PRIVATECACHE != 0
    ensures OpenBits(DefaultFlags, PrivateCacheAsWritten) ==
      SQLITE_OPEN_CREATE | SQLITE_OPEN_READWRITE | SQLITE_OPEN_NOMUTEX | SQLITE_OPEN_PRIVATECACHE
  {
    OpenBitsExact(NoMutex, PrivateCacheAsWritten);
    OpenBitsExact(DefaultFlags, PrivateCacheAsWritten);
  }

  /** With privateCache on its own bit the two options are independent. */
  lemma SqlFlagsSeparatesNoMutex()
    ensures OpenBits(NoMutex, PrivateCache) == SQLITE_OPEN_NOMUTEX
    ensures OpenBits(PrivateCache, PrivateCache) == SQLITE_OPEN_PRIVATECACHE
    ensures OpenBits(DefaultFlagsSeparated, PrivateCache) ==
      SQLITE_OPEN_CREATE | SQLITE_OPEN_READWRITE | SQLITE_OPEN_NOMUTEX | SQLITE_OPEN_PRIVATECACHE
  {
    OpenBitsExact(NoMutex, PrivateCache);
    OpenBitsExact(PrivateCache, PrivateCache);
    OpenBitsExact(DefaultFlagsSeparated, PrivateCache);
  }

  /** `OpenFlag.sqlFlags`, as written: OR the engine flag of each requested
      option into an accumulator, testing privateCache on the bit it shares
      with noMutex. */
  method SqlFlags(flags: OpenFlag) returns (bits: bv32)
    ensures bits == OpenBits(flags, PrivateCacheAsWritten)
  {
    ghost var create: bv32 := if Contains(flags, Create) then SQLITE_OPEN_CREATE else 0;
    ghost var access: bv32 := if Contains(flags, ReadOnly) then SQLITE_OPEN_READONLY
      else if Contains(flags, ReadWrite) then SQLITE_OPEN_READWRITE else 0;
    ghost var mutex: bv32 := if Contains(flags, NoMutex) then SQLITE_OPEN_NOMUTEX else 0;
    ghost var cache: bv32 := if Contains(flags, PrivateCacheAsWritten) then SQLITE_OPEN_PRIVATECACHE else 0;
    bits := 0;
    if Contains(flags, Create) {
      bits := bits | SQLITE_OPEN_CREATE;
    }
    assert bits == create;
    if Contains(flags, ReadOnly) {
      bits := bits | SQLITE_OPEN_READONLY;
    } else if Contains(flags, ReadWrite) {
      bits := bits | SQLITE_OPEN_READWRITE;
    }
    assert bits == create | access;
    if Contains(flags, NoMutex) {
      bits := bits | SQLITE_OPEN_NOMUTEX;
    }
    assert bits == create | access | mutex;
    if Contains(flags, PrivateCacheAsWritten) {
      bits := bits | SQLITE_OPEN_PRIVATECACHE;
    }
    assert bits == create | access | mutex | cache;
  }

  /** The outcome of `_prepare` on an open handle. */
  function PrepareOutcome(sqlite: Sqlite, sql: string): (r: Outcome<Compiled>)
    ensures r.Ok? <==> sqlite.compile(sql).status == SQLITE_OK && sqlite.compile(sql).hasStatement
    ensures r.Ok? ==> r.value == sqlite.compile(sql)
  {
    var c := sqlite.compile(sql);
    var checked := Check(c.status, sqlite.diagnose(c.status));
    if checked.Fail? then Fail(checked.error)
    else if !c.hasStatement then Fail(SqlGenerationError)
    else Ok(c)
  }

  /** The effect of `_execute` on a statement prepared from `sql` with these
      bindings: one step, accepted only when it answers SQLITE_DONE. */
  function ExecuteEffect(sqlite: Sqlite, st: State, sql: string, bindings: map<int, Value>): (Outcome<()>, State) {
    var (status, st') := StepSpec(st, Exec(Trim(sql, Cleanup), bindings), sqlite.verdict);
    (Check(status, sqlite.diagnose(status), {SQLITE_DONE}), st')
  }

  /** A connection. `handle` is the engine handle (`_ptr`), null while the
      connection is not open. */
  class Connection {
    const source: Source
    const sqlite: Sqlite
    var handle: Engine?
    var spCounter: nat
    var events: seq<EventName>
    ghost var calls: seq<EngineCall>

    /** `init(source:)`: nothing is opened yet. */
    constructor (source: Source, sqlite: Sqlite)
      ensures this.source == source && this.sqlite == sqlite
      ensures handle == null && spCounter == 0 && events == [] && calls == []
    {
      this.source := source;
      this.sqlite := sqlite;
      handle := null;
      spCounter := 0;
      events := [];
      calls := [];
    }

    /** `open(flags:)`, with `status` the answer of sqlite3_open_v2. An open
        connection is left as it is; a failed open raises openFailure and
        leaves the handle unset. The `opened` event is published on every
        path that does not throw, including the early return. */
    method Open(flags: OpenFlag, status: int) returns (r: Outcome<()>)
      modifies this
      ensures old(handle) != null ==>
        r == Ok(()) && handle == old(handle) && calls == old(calls) && events == old(events) + [Opened]
      ensures old(handle) == null ==>
        calls == old(calls) + [OpenCall(PathOf(source), OpenBits(flags, PrivateCacheAsWritten))]
      ensures old(handle) == null && status != SQLITE_OK ==>
        r == Fail(OpenFailure(status)) && handle == null && events == old(events)
      ensures old(handle) == null && status == SQLITE_OK ==>
        && r == Ok(()) && handle != null && fresh(handle) && handle.sqlite == sqlite
        && handle.applied == sqlite.stored(PathOf(source)) && handle.savepoints == []
        && events == old(events) + [Opened]
      ensures spCounter == old(spCounter)
    {
      if handle == null {
        var path := PathOf(source);
        var bits := SqlFlags(flags);
        calls := calls + [OpenCall(path, bits)];
        if status != SQLITE_OK {
          return Fail(OpenFailure(status));
        }
        handle := new Engine(sqlite, path);
      }
      events := events + [Opened];
      r := Ok(());
    }

    /** `close()`, with `status` the answer of sqlite3_close_v2. A closed
        connection is left as it is; a failed close raises closeFailure and
        keeps the handle. The `closed` event is published on every path that
        does not throw. */
    method Close(status: int) returns (r: Outcome<()>)
      modifies this
      ensures old(handle) == null ==>
        r == Ok(()) && handle == null && calls == old(calls) && events == old(events) + [Closed]
      ensures old(handle) != null ==> calls == old(calls) + [CloseCall]
      ensures old(handle) != null && status != SQLITE_OK ==>
        r == Fail(CloseFailure(status)) && handle == old(handle) && events == old(events)
      ensures old(handle) != null && status == SQLITE_OK ==>
        r == Ok(()) && handle == null && events == old(events) + [Closed]
      ensures spCounter == old(spCounter)
    {
      if handle != null {
        calls := calls + [CloseCall];
        if status != SQLITE_OK {
          return Fail(CloseFailure(status));
        }
        handle := null;
      }
      events := events + [Closed];
      r := Ok(());
    }

    /** `_execute(statement:)`: unopened before anything else; otherwise the
        statement's `_update`, and `updated` is published only after it
        succeeds. */
    method Execute(stmt: Statement) returns (r: Outcome<()>)
      requires stmt.live
      modifies this, stmt, stmt.db
      ensures handle == null ==>
        r == Fail(Unopened) && events == old(events) && stmt.db.Snapshot() == old(stmt.db.Snapshot())
      ensures handle != null ==>
        var (status, st) := StepSpec(old(stmt.db.Snapshot()), Exec(stmt.sql, stmt.bindings), stmt.db.sqlite.verdict);
        && stmt.db.Snapshot() == st
        && r == Check(status, stmt.db.sqlite.diagnose(status), {SQLITE_DONE})
        && events == old(events) + (if r.Ok? then [Updated] else [])
      ensures handle == old(handle) && spCounter == old(spCounter) && calls == old(calls)
      ensures stmt.live && stmt.bindings == old(stmt.bindings)
    {
      if handle == null {
        return Fail(Unopened);
      }
      r := stmt.Update();
      if r.Ok? {
        events := events + [Updated];
      }
    }

    /** `_prepare(sql:)`: unopened before anything else; otherwise a
        statement on this connection's handle. */
    method Prepare(sql: string) returns (r: Outcome<Statement>)
      ensures handle == null ==> r == Fail(Unopened)
      ensures handle != null ==>
        var p := PrepareOutcome(handle.sqlite, sql);
        && (p.Fail? ==> r == Fail(p.error))
        && (p.Ok? ==>
              (r.Ok? && fresh(r.value) && r.value.live && r.value.db == handle
              && r.value.sql == Trim(sql, Cleanup)
              && r.value.parameterNames == p.value.parameterNames
              && r.value.columnNames == p.value.columnNames
              && r.value.bindings == map[] && r.value.lastStatus == SQLITE_OK
              && r.value.cursor == None && r.value.current == []))
    {
      if handle == null {
        return Fail(Unopened);
      }
      r := Statement.Prepare(sql, handle);
    }

    /** `_query(statement:)`: unopened before anything else; otherwise a
        cursor over the statement, not yet stepped. */
    method Query(stmt: Statement) returns (r: Outcome<Result>)
      ensures handle == null ==> r == Fail(Unopened)
      ensures handle != null ==>
        var cols := ColumnsOf(stmt.columnNames);
        && (cols.Fail? ==> r == Fail(cols.error))
        && (cols.Ok? ==> r.Ok? && fresh(r.value) && r.value.statement == stmt && r.value.columns == cols.value)
    {
      if handle == null {
        return Fail(Unopened);
      }
      r := Result.Open(stmt);
    }

    /** `lastInsertedRowID()`: the engine's last inserted row id. The
        connection's `_lastInsertedRowID` is not part of this model's source;
        it is taken to be guarded like its siblings. */
    method LastInsertedRowId() returns (r: Outcome<int64>)
      ensures handle == null ==> r == Fail(Unopened)
      ensures handle != null ==> r == Ok(handle.sqlite.lastRowId(handle.applied))
    {
      if handle == null {
        return Fail(Unopened);
      }
      r := Ok(handle.sqlite.lastRowId(handle.applied));
    }
  }
}
