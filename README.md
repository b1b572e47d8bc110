# RecordStore, modelled in Dafny

RecordStore is a thin persistence layer over SQLite, written in Swift. A
`Connection` owns one engine handle. It prepares `Statement`s, binds `Value`s
to their parameter slots, steps them and reads the rows back through a
`Result`. Every write can happen inside a `Savepoint` scope. The scope is
released when its block returns and rolled back to its start when the block
throws. Scopes nest, and their names come from a per-connection counter.

On top of that:
- `TableSchema` describes a table (columns, indices, foreign keys) and
  generates its `CREATE TABLE` and `CREATE INDEX` texts.
- A `Migration` runs at most once per database. The `RS_MIGRATION` ledger
  table records the names of the migrations already run.
- `Record` is a dictionary-backed model with a primary key under `"id"` and
  two timestamps. Its `ColumnValidate` rules check presence and foreign keys.
- `Query` builds `SELECT` texts with named placeholders.
- The `Coordinator` runs blocks in a save-point and sends save, delete and
  commit signals. A `CoordinatedQuery` uses those signals to decide when to
  fetch its rows again.

The model keeps that layering, one Dafny module per Swift file:

| module | file |
|---|---|
| `Errors` | `Errors.swift` |
| `Values` | `Value.swift` |
| `Text` | the string operations the layer relies on: decimal printing, joining, trimming, and SQL templates with their parameter slots |
| `Engine` | the SQLite engine as the layer sees it (below) |
| `Statements` | `Statement.swift` |
| `Results` | `Result.swift` |
| `Connections` | `Connection.swift` |
| `Databases` | `Database.swift` |
| `Savepoints` | `Savepoint.swift` and `Connection._savepoint` |
| `Schemas` | `Schema.swift` |
| `Records` | `Record.swift` |
| `Validators` | `Validator.swift` |
| `Models` | `Model.swift` |
| `Queries` | `Query.swift` |
| `Operations` | `Operation.swift`, `Connection.perform(operation:)`, `register` and `apply` |
| `Coordinators` | `Coordinator.swift` |

The engine is not part of this model. It is a value, `Sqlite`, that the
proofs leave abstract. It holds the compiler's answer for each text, the
status each binder returns, the verdict of each step, the rows each query
yields and the diagnostics for each status. The database content is a list
of applied statements plus a stack of open save-points, each with a
snapshot. SAVEPOINT pushes a frame. RELEASE pops the named frame and every
frame above it, keeping the changes. ROLLBACK TO restores the snapshot and
leaves the named frame open. The classes keep the source's mutable state as
fields: the connection's handle, counter and published events, a statement's
bindings and cursor, a record's storage, a scope's `isCompleted` flag, a
query's builder lists, and a coordinated query's objects and `hasChanges`
flag. Their methods are proved against functions over that state.

## Model

| member | source | states |
|---|---|---|
| Errors.Check | Sources/RecordStore/Errors.swift:24-33 | The check succeeds exactly when the status is in the success set. On failure it raises an SQL error carrying that status and the handle's extended code and message. |
| Errors.DefaultCheckAcceptsOnlyOk | Sources/RecordStore/Errors.swift:24 | With the default success set only SQLITE_OK passes: neither ROW nor DONE does. |
| Values.NilLiteral | Sources/RecordStore/Value.swift:45-47 | The nil literal is the null value. |
| Values.IntegerLiteral | Sources/RecordStore/Value.swift:57-59 | An integer literal is a 64-bit integer value holding that number. |
| Values.BoolLiteral | Sources/RecordStore/Value.swift:63-65 | true is stored as the integer 1 and false as 0, and nothing else. |
| Values.StringLiteral | Sources/RecordStore/Value.swift:71-73 | A string literal is a string value holding that text. |
| Values.UuidValue | Sources/RecordStore/Value.swift:81-83 | A UUID is stored as the string literal of its canonical text. |
| Values.FloatLiteral | Sources/RecordStore/Value.swift:51-53 | A float literal is a real value holding that number. |
| Values.BinderFor | Sources/RecordStore/Value.swift:21-41 | Each of the five variants goes to its own binder (null, int64, text, blob, double), at the slot asked for. |
| Values.BindingIsLossless | Sources/RecordStore/Value.swift:21-41 | The engine receives exactly the value bound, at the slot asked for. |
| Values.BinderInjective | Sources/RecordStore/Value.swift:21-41 | Distinct values at the same slot make distinct binder calls. |
| Text.NatToString | Sources/RecordStore/Query.swift:106-111 | A number prints as a non-empty run of decimal digits. |
| Text.Join | Sources/RecordStore/Query.swift:109-115 | Joining nothing gives the empty text, and joining one part gives that part. |
| Text.ParseNatToString | Sources/RecordStore/Query.swift:106-107 | The decimal text of a number parses back to that number. |
| Text.NatToStringInjective | Sources/RecordStore/Query.swift:106-111 | Different numbers print differently, so generated placeholder names do not collide. |
| Text.JoinPiecesRender | Sources/RecordStore/Query.swift:115 | Joining templates and then rendering gives the joined rendered texts. |
| Text.JoinPiecesSlots | Sources/RecordStore/Query.swift:115 | Joining templates adds no parameter slot, positional or named. |
| Text.TrimDropsTail | Sources/RecordStore/Statement.swift:21-44 | Trimming a text that ends in `;` and white space removes exactly that tail when the text proper starts and ends with other characters. |
| Engine.ClassifySavepointSql | Sources/RecordStore/Savepoint.swift:61-82 | The engine reads the three save-point texts as SAVEPOINT, RELEASE and ROLLBACK TO of that name. |
| Engine.Find | Sources/RecordStore/Savepoint.swift:71-82 | The lookup returns the most recent open save-point of that name, or none when no open save-point has it. |
| Engine.StepSpecShape | Sources/RecordStore/Connection.swift:265-271 | A step that does not finish changes nothing. A plain statement leaves the save-points alone and is applied when it finishes. SAVEPOINT always finishes without applying anything. |
| Engine.ReleaseKeeps | Sources/RecordStore/Savepoint.swift:67-76 | RELEASE keeps every change and closes the named save-point with all those above it. |
| Engine.RollbackRestores | Sources/RecordStore/Savepoint.swift:78-87 | ROLLBACK TO restores the contents from when the save-point opened and leaves it open. |
| Engine.Engine.Step | Sources/RecordStore/Connection.swift:268 | A step changes the engine state as the step function says and returns its status. |
| Statements.BindValue | Sources/RecordStore/Value.swift:21-41 | Binding one value succeeds exactly when the engine's binder answers SQLITE_OK. |
| Statements.RunPlanStops | Sources/RecordStore/Statement.swift:60-83 | Once a slot has failed to bind, no later slot is attempted. |
| Statements.Positional | Sources/RecordStore/Statement.swift:81-83 | Binding a list fills slots 1 to n, and slot k + 1 holds value k. |
| Statements.PositionalBindsInOrder | Sources/RecordStore/Statement.swift:74-84 | Binding a list succeeds exactly when every value binds at its slot, and then the bindings are the positional ones. |
| Statements.NamedBindResolves | Sources/RecordStore/Statement.swift:53-72 | A successful named binding means every slot had a name, and the dictionary holds each name without its leading sigil. Slot i + 1 then holds that entry. |
| Statements.Statement.Prepare | Sources/RecordStore/Statement.swift:29-45 | A compiler status other than OK raises the checked SQL error. A text that compiles to no statement raises the generation error. Otherwise the new live statement keeps the text trimmed of `;` and white space, the slot and column names, and no bindings. |
| Statements.Statement.Reset | Sources/RecordStore/Statement.swift:47-51 | The reset fails exactly when the last step status was an error, reporting that status. The bindings survive and the cursor starts over. |
| Statements.Statement.Bind | Sources/RecordStore/Statement.swift:74-84 | A count mismatch raises the count error before anything is bound. Otherwise the new bindings and the outcome are those of binding value k at slot k + 1, in order. |
| Statements.Statement.BindNamed | Sources/RecordStore/Statement.swift:53-72 | A count mismatch raises the count error. Otherwise each slot is bound in order from the entry under its name without the sigil. A missing name or an unnamed slot raises its error. |
| Statements.Statement.Finalize | Sources/RecordStore/Statement.swift:90-93 | The statement is no longer live and nothing else changes. Doing it twice is harmless. |
| Statements.Statement.StepQuery | Sources/RecordStore/Result.swift:53 | A step of a query moves to the next reply of the engine's answer for this text and these bindings, with DONE when none is left. |
| Statements.Statement.Update | Sources/RecordStore/Connection.swift:265-271 | One step: the engine state changes as the step says, and only DONE counts as success. |
| Results.ColumnsOf | Sources/RecordStore/Result.swift:27-42 | Column names are read in order. The read fails exactly when a name is missing, and it reports the first missing index. |
| Results.Advance | Sources/RecordStore/Result.swift:52-65 | ROW means there is a row. DONE or OK means the scan has ended. Any other status raises an SQL error. |
| Results.CellValue | Sources/RecordStore/Result.swift:83-106 | Each engine type maps to its variant. A blob or text with no data raises the null-column error, and an unknown type tag raises the unknown-type error. |
| Results.CellValueFaithful | Sources/RecordStore/Result.swift:83-106 | A readable cell reads back as exactly the value the engine handed over. |
| Results.RowOfKeys | Sources/RecordStore/Result.swift:77-110 | A readable row has an entry for exactly the column names. |
| Results.RowOfLastWins | Sources/RecordStore/Result.swift:80-86 | When two columns share a name, the row holds the value of the last one. |
| Results.RowPrefixFails | Sources/RecordStore/Result.swift:80-107 | A column that cannot be read aborts the whole row. |
| Results.ColumnsPrefixFails | Sources/RecordStore/Result.swift:33-39 | A missing column name aborts the whole column list. |
| Results.RowsOf | Sources/RecordStore/Result.swift:67-75 | `rows()` never yields more rows than the engine's replies. |
| Results.RowsOfAreRows | Sources/RecordStore/Result.swift:67-75 | Every row `rows()` returns is the reading of a ROW reply, in order. |
| Results.RowsOfComplete | Sources/RecordStore/Result.swift:67-75 | `rows()` stops only where the scan ends: after the rows it returns, the replies are exhausted or the next one is DONE or OK. |
| Results.RowsOfFails | Sources/RecordStore/Result.swift:67-75 | `rows()` fails only at the first unusable reply: every earlier reply is a readable row, and that reply either carries an error status, raised as its SQL error, or is a row whose cells cannot be read, raising that error. |
| Results.FirstIsHeadOfRows | Sources/RecordStore/Result.swift:44-50 | `first()` is the first of the rows, or raises the no-rows error exactly when there are none. |
| Results.StringFor | Sources/RecordStore/Result.swift:114-116 | A string is returned exactly when the column holds a string. |
| Results.DataFor | Sources/RecordStore/Result.swift:118-125 | Data is returned exactly when the column holds a blob. |
| Results.IntegerFor | Sources/RecordStore/Result.swift:127-129 | An integer is returned exactly when the column holds an integer. |
| Results.DoubleFor | Sources/RecordStore/Result.swift:131-138 | A double is returned exactly when the column holds a real. |
| Results.BoolFor | Sources/RecordStore/Result.swift:140-145 | A column reads as true exactly when it holds the integer 1. |
| Results.BoolRoundTrip | Sources/RecordStore/Result.swift:140-145 | A boolean stored as a literal reads back unchanged. |
| Results.AccessorsRoundTrip | Sources/RecordStore/Result.swift:114-138 | Each typed accessor returns what the matching literal stored. |
| Results.Result.Open | Sources/RecordStore/Result.swift:27-42 | Opening a result fails with the column-name error, or keeps the statement and its columns. |
| Results.Result.Next | Sources/RecordStore/Result.swift:52-65 | `next()` consumes one reply and classifies its status. The current row is that reply's cells when it is a ROW. |
| Results.Result.ReadRow | Sources/RecordStore/Result.swift:77-110 | `row()` is the reading of the current cells under the result's columns. |
| Results.Result.First | Sources/RecordStore/Result.swift:44-50 | `first()` consumes one reply and returns the first row or the no-rows error. |
| Results.Result.Rows | Sources/RecordStore/Result.swift:67-75 | `rows()` reads the replies in order until the scan ends, stopping at the first error. |
| Connections.PathOf | Sources/RecordStore/Connection.swift:169-174 | A memory source opens `:memory:` and a location opens its absolute URL. |
| Connections.OpenBitsExact | Sources/RecordStore/Connection.swift:136-157 | Each engine flag is set exactly when its option is present. Read-only wins over read-write, and no other bit is set. |
| Connections.SqlFlags | Sources/RecordStore/Connection.swift:136-157 | The flag word is the one the option bits describe, with privateCache tested on the bit it shares with noMutex, as written. |
| Connections.NoMutexImpliesPrivateCache | Sources/RecordStore/Connection.swift:131-154 | As written, asking only for no-mutex also sets the private-cache flag. The default set still asks for all four flags. See Findings. |
| Connections.SqlFlagsSeparatesNoMutex | Sources/RecordStore/Connection.swift:128-134 | Corrected: with private-cache on a bit of its own, each option sets only its own flag, and the default set asks for create, read-write, no-mutex and private-cache. |
| Connections.PrepareOutcome | Sources/RecordStore/Statement.swift:32-45 | Preparing succeeds exactly when the text compiles to a statement, and then gives the compiler's answer. |
| Connections.Connection.constructor | Sources/RecordStore/Connection.swift:24-26 | A new connection has no handle, a zero counter and no events. |
| Connections.Connection.Open | Sources/RecordStore/Connection.swift:161-194 | Opening an open connection does nothing but publish `opened` again. Otherwise the engine is asked for the source's path with the flag word `sqlFlags` computes as written. A failure status raises the open error and leaves it closed. Success installs a fresh handle on the stored database and publishes `opened`. |
| Connections.Connection.Close | Sources/RecordStore/Connection.swift:196-214 | Closing a closed connection does nothing but publish `closed`. A failure status raises the close error and keeps the handle. Success drops the handle and publishes `closed`. |
| Connections.Connection.Execute | Sources/RecordStore/Connection.swift:94-102 | Without a handle this raises `unopened` and changes nothing. Otherwise the statement steps once, only DONE succeeds, and `updated` is published on success. |
| Connections.Connection.Prepare | Sources/RecordStore/Connection.swift:104-110 | Without a handle this raises `unopened`. Otherwise it is the statement preparation on the handle. |
| Connections.Connection.Query | Sources/RecordStore/Connection.swift:112-118 | Without a handle this raises `unopened`. Otherwise it opens a result over the statement's columns. |
| Connections.Connection.LastInsertedRowId | Sources/RecordStore/Savepoint.swift:50-52 | Without a handle this raises `unopened`. Otherwise it is the engine's last row id for the current contents. |
| Databases.Escape | Sources/RecordStore/Database.swift:51-53 | The text is wrapped in the prefix and suffix with its inside unchanged. |
| Databases.EscapeAll | Sources/RecordStore/Database.swift:57-59 | Every name is escaped, keeping the count and order. |
| Databases.ExecuteSqlAtomic | Sources/RecordStore/Database.swift:21-33 | A helper call that fails leaves the database as it was. One that succeeds prepared, bound and stepped its statement to completion. |
| Databases.DefaultParametersRejectPlaceholders | Sources/RecordStore/Database.swift:21 | With the default empty parameter list, a text with placeholders fails the count check and nothing runs. |
| Databases.PrepareAndExecute | Sources/RecordStore/Savepoint.swift:61-62 | Prepare and execute a text with no bindings: the outcome and the new state are the preparation's and the step's. |
| Databases.PrepareBound | Sources/RecordStore/Database.swift:22-31 | Preparing, resetting and binding fails with the first error, or yields a fresh statement bound as the binding function says. |
| Databases.ExecuteBound | Sources/RecordStore/Database.swift:25-32 | Executing a statement prepared and bound from a text has the same effect as the helper over that text. |
| Databases.ExecuteSql | Sources/RecordStore/Database.swift:21-33 | `execute(sql:parameters:)` in either form: the outcome and the new state are those of preparing, binding and stepping. `updated` is published only on success. |
| Databases.QuerySql | Sources/RecordStore/Database.swift:35-47 | `query(sql:parameters:)` in either form: the first failure of preparing, binding or reading column names, or a fresh result over the bound statement, not yet stepped. |
| Savepoints.SavepointName | Sources/RecordStore/Connection.swift:231 | A generated name starts with `SP_0` and ends in a digit. |
| Savepoints.SavepointNamesDistinct | Sources/RecordStore/Connection.swift:229-231 | Different counter values give different names. |
| Savepoints.GeneratedNamesArePlain | Sources/RecordStore/Connection.swift:231 | A generated name is a plain identifier that the statement texts carry unchanged. |
| Savepoints.SavepointTextsTrim | Sources/RecordStore/Savepoint.swift:61-82 | The kept text of each save-point statement is its SQL without the `;`. |
| Savepoints.BeginPushes | Sources/RecordStore/Savepoint.swift:60-65 | SAVEPOINT opens a frame whose snapshot is the current contents. |
| Savepoints.ReleasePops | Sources/RecordStore/Savepoint.swift:67-76 | RELEASE closes the named frame and those above it and keeps the contents. |
| Savepoints.RollbackReturns | Sources/RecordStore/Savepoint.swift:78-87 | ROLLBACK TO brings back the named frame's snapshot and keeps that frame open. |
| Savepoints.FinishAtMostOnce | Sources/RecordStore/Savepoint.swift:67-81 | A completed scope ignores a second release or rollback. A failed finish changes nothing and leaves the scope open. |
| Savepoints.ExitOutcome | Sources/RecordStore/Connection.swift:235-242 | `_savepoint` returns the block's value only when the block succeeded. A block error always ends in an error, and in the block's own error when the release or rollback itself succeeds or is skipped. |
| Savepoints.Scope.constructor | Sources/RecordStore/Savepoint.swift:33-36 | A new scope is bound to its connection and name and is not completed. |
| Savepoints.Scope.Begin | Sources/RecordStore/Savepoint.swift:60-65 | Runs SAVEPOINT and publishes `updated` then `savepointBegin` on success. |
| Savepoints.Scope.Release | Sources/RecordStore/Savepoint.swift:67-76 | Does nothing once completed. Otherwise runs RELEASE, and on success marks the scope completed and publishes `savepointRelease`. |
| Savepoints.Scope.Rollback | Sources/RecordStore/Savepoint.swift:78-87 | Does nothing once completed. Otherwise runs ROLLBACK TO, and on success marks the scope completed and publishes `savepointRollback`. |
| Savepoints.Enter | Sources/RecordStore/Connection.swift:224-233 | Without a handle this raises `unopened` and leaves the counter alone. Otherwise it increments the counter, names the scope after it and begins it. |
| Savepoints.Exit | Sources/RecordStore/Connection.swift:235-242 | After the block, a success is released and a failure is rolled back. Only a successful block whose release succeeds returns its value. |
| Savepoints.PlainStepApplies | Sources/RecordStore/Connection.swift:265-271 | A plain statement that finishes is appended to the contents. |
| Savepoints.BeginTextPerforms | Sources/RecordStore/Savepoint.swift:61-62 | Running the SAVEPOINT text is opening a scope. |
| Savepoints.ReleaseTextPerforms | Sources/RecordStore/Savepoint.swift:71-72 | Running the RELEASE text is releasing the scope. |
| Savepoints.RollbackTextPerforms | Sources/RecordStore/Savepoint.swift:82-83 | Running the ROLLBACK TO text is rolling the scope back. |
| Savepoints.ReplayAppend | Sources/RecordStore/Savepoint.swift:60-87 | Running two lists of scope actions one after the other is running their concatenation. |
| Savepoints.OpenThenRun | Sources/RecordStore/Savepoint.swift:60-65 | A statement run after opening a scope is applied on top of that scope's snapshot. |
| Savepoints.RollbackTop | Sources/RecordStore/Savepoint.swift:78-87 | Rolling back the innermost scope restores its snapshot and keeps it open. |
| Savepoints.ReleaseAt | Sources/RecordStore/Savepoint.swift:67-76 | Releasing the scope at a position closes it and those above it. |
| Savepoints.RolledBackInsertIsUndone | Tests/RecordStoreTests/RecordStoreTests.swift:77-92 | An insert in an inner scope that is rolled back is gone, and what the outer scope did stays. |
| Savepoints.ReleasedInsertIsKept | Tests/RecordStoreTests/RecordStoreTests.swift:94-109 | An insert in an inner scope that is released, followed by releasing the outer scope, stays in the database. |
| Savepoints.NestedIsolation | Tests/RecordStoreTests/RecordStoreTests.swift:72-110 | A rolled-back inner insert followed by a released one leaves exactly one insert after the outer release. |
| Savepoints.FirstThreeNames | Sources/RecordStore/Connection.swift:229-231 | The first three generated names are plain and pairwise distinct. |
| Schemas.StorageName | Sources/RecordStore/Schema.swift:22-28 | A storage class name is non-empty, with no white space at either end. |
| Schemas.EncodeNames | Sources/RecordStore/Schema.swift:37-56 | The encoding lists exactly the options that are set, and no other tag. |
| Schemas.Decode | Sources/RecordStore/Schema.swift:58-84 | Decoding sets an option exactly when its tag is present, and no bit beyond the four options. |
| Schemas.DecodeEncode | Sources/RecordStore/Schema.swift:37-84 | Decoding the encoding gives back the option set with bits beyond the four options dropped. |
| Schemas.SqlPartsPhrases | Sources/RecordStore/Schema.swift:91-109 | The clause has NOT NULL, PRIMARY KEY AUTOINCREMENT or else PRIMARY KEY, and UNIQUE exactly when their options are set, in that order. |
| Schemas.OptionsSqlEmpty | Sources/RecordStore/Schema.swift:91-109 | The options clause is empty exactly when none of the four options is set. |
| Schemas.OptionsSqlEnds | Sources/RecordStore/Schema.swift:91-109 | A non-empty options clause neither starts nor ends with white space. |
| Schemas.ColumnHead | Sources/RecordStore/Schema.swift:117 | The quoted name and storage class have no white space at either end. |
| Schemas.ColumnSqlWithOptions | Sources/RecordStore/Schema.swift:116-118 | With options, the trimming keeps the whole column definition. |
| Schemas.ColumnSqlWithoutOptions | Sources/RecordStore/Schema.swift:116-118 | Without options, the trailing space goes and the definition is the quoted name and storage class. |
| Schemas.ForeignKeySql | Sources/RecordStore/Schema.swift:143-154 | The clause is the reference, then the deferral clause exactly when the key is deferrable, then both actions. |
| Schemas.DeferralOnlyAddsClause | Sources/RecordStore/Schema.swift:146-148 | Deferral changes nothing but the deferral clause. |
| Schemas.ColumnSqls | Sources/RecordStore/Schema.swift:184 | One definition per column, in order. |
| Schemas.ForeignKeySqls | Sources/RecordStore/Schema.swift:185 | One clause per foreign key, in order. |
| Schemas.IndexSqls | Sources/RecordStore/Schema.swift:191-201 | One index text per index, in order. |
| Schemas.MigrationName | Sources/RecordStore/Schema.swift:203-205 | A table's migration is named `CREATE_` followed by the table name. |
| Schemas.TableSchema.constructor | Sources/RecordStore/Schema.swift:157-161 | A new schema has its name and no columns, indices or foreign keys. |
| Schemas.TableSchema.AddColumn | Sources/RecordStore/Schema.swift:163-167 | Appends the column and changes nothing else. |
| Schemas.TableSchema.AddIndex | Sources/RecordStore/Schema.swift:169-173 | Appends the index and changes nothing else. |
| Schemas.TableSchema.AddForeignKey | Sources/RecordStore/Schema.swift:175-179 | Appends the foreign key, with its defaults, and changes nothing else. |
| Schemas.FirstRejected | Sources/RecordStore/Schema.swift:194-198 | No error means every text prepares. |
| Schemas.FirstRejectedIsFirst | Sources/RecordStore/Schema.swift:194-198 | The error reported is that of the first text that does not prepare. |
| Schemas.FirstRejectedExtends | Sources/RecordStore/Schema.swift:194-198 | A rejection in a prefix is the rejection of the whole list. |
| Schemas.RunAllStops | Sources/RecordStore/Schema.swift:221-223 | Once an index statement fails, no later one runs. |
| Schemas.RunAllApplies | Sources/RecordStore/Schema.swift:221-223 | Running plain statements keeps the save-points and only ever extends the contents. On success each text is applied in order with one `updated` each. |
| Schemas.Updates | Sources/RecordStore/Connection.swift:101 | n `updated` events. |
| Schemas.MigrateApplies | Sources/RecordStore/Schema.swift:218-224 | A table migration creates the table and then its indices in order, or stops at the first failure. |
| Schemas.PrepareAll | Sources/RecordStore/Schema.swift:191-201 | `statements(_:)` fails with the first text that does not prepare, or returns one fresh prepared statement per index text. |
| Schemas.ExecuteAll | Sources/RecordStore/Schema.swift:221-223 | Executing the prepared index statements has the effect of running their texts in order, stopping at the first failure. |
| Schemas.MigrateTexts | Sources/RecordStore/Schema.swift:218-224 | A migration body for a table text and index texts matches its specification. |
| Schemas.Migrate | Sources/RecordStore/Schema.swift:218-224 | `migrate(in:)` for a schema: prepare and run the CREATE TABLE text built from its columns and foreign keys, then each index statement. |
| Records.KeyOf | Sources/RecordStore/Record.swift:15-17 | The primary key is the integer under `"id"`, and 0 when there is none. |
| Records.KeyOfIgnoresOtherKeys | Sources/RecordStore/Record.swift:60-62 | Setting any other key leaves the primary key alone. |
| Records.Record.constructor | Sources/RecordStore/Record.swift:52-54 | A record built from a row holds exactly that row. |
| Records.Record.New | Sources/RecordStore/Record.swift:48-50 | A new record has both timestamps set to now, and primary key 0. |
| Records.Record.Row | Sources/RecordStore/Record.swift:56-58 | `row()` returns the storage. |
| Records.Record.ValueFor | Sources/RecordStore/Record.swift:64-66 | The value is present exactly when the key is stored, and it is what was stored. |
| Records.Record.Set | Sources/RecordStore/Record.swift:60-62 | Only the given key changes, and it now reads back the value. |
| Records.Record.Inserted | Sources/RecordStore/Record.swift:72-74 | The row id becomes the primary key. |
| Records.Record.WillInsert | Sources/RecordStore/Record.swift:32-34 | The insert hook leaves the storage alone. |
| Records.Record.WillUpdate | Sources/RecordStore/Record.swift:36-40 | The update hook stamps `updatedAt` with now and keeps the primary key. |
| Records.CreateTableSchema | Sources/RecordStore/Record.swift:19-27 | The default schema is named after the type and has the id, createdAt and updatedAt columns and nothing else. |
| Records.BaseColumnsOptions | Sources/RecordStore/Record.swift:22-24 | The id column is a NOT NULL autoincrementing primary key, both timestamps are NOT NULL, and no column is UNIQUE or a plain primary key. |
| Validators.ValidationContext.constructor | Sources/RecordStore/Validator.swift:28-32 | A new context has the database and no errors. |
| Validators.ValidationContext.Add | Sources/RecordStore/Validator.swift:34-36 | Appends the error, keeping the order. |
| Validators.ValidationContext.Finalize | Sources/RecordStore/Validator.swift:38-43 | Succeeds exactly when no error was added. Otherwise it raises a validation error carrying all of them in order. |
| Validators.MessagesAtMostOne | Sources/RecordStore/Validator.swift:85-101 | A rule gives at most one message. It gives "is required" exactly when the rule is required and the key is absent, so a stored null is present. It gives "does not exist" exactly when a present value is not found. |
| Validators.CheckAddsAtMostOne | Sources/RecordStore/Validator.swift:104-106 | A rule adds at most one error, named after its column and with a message. |
| Validators.MissingRequiredIsReported | Sources/RecordStore/Validator.swift:85-87 | A required column that is absent is reported as required. |
| Validators.ColumnValidate.constructor | Sources/RecordStore/Validator.swift:74-76 | A new rule requires nothing. |
| Validators.ColumnValidate.Presence | Sources/RecordStore/Validator.swift:109-113 | Sets the required flag and returns the same validator. |
| Validators.ColumnValidate.ForeignKey | Sources/RecordStore/Validator.swift:115-119 | Sets the foreign key (default key `rowid`) and returns the same validator. |
| Validators.ColumnValidate.Validate | Sources/RecordStore/Validator.swift:78-107 | A failure to prepare or bind the existence query raises that error with the context unchanged. Otherwise the rule's error, if any, is appended to the context. |
| Validators.Lookup | Sources/RecordStore/Validator.swift:91-100 | A failure to prepare or bind the existence query is raised. A query that fails, or yields no first row, counts as not found. Otherwise the value is found exactly when the row's `itExists` is 1. |
| Validators.ChecksAt | Sources/RecordStore/Record.swift:94-96 | Outcome i of the run is that of rule i. |
| Validators.CollectOutcome | Sources/RecordStore/Record.swift:94-98 | The run fails exactly when some rule throws, and with the first rule's error. On success every error collected comes from some rule. |
| Validators.CollectSize | Sources/RecordStore/Record.swift:94-98 | When each rule adds at most one error, at most one error per rule is collected. |
| Validators.ChecksPrefix | Sources/RecordStore/Record.swift:94-96 | A failure among the first rules is the failure of the whole run. A successful run collects the first rules' errors first. |
| Validators.ValidateAllOutcome | Sources/RecordStore/Record.swift:91-99 | The run throws exactly when some rule throws, and with the first such error. Otherwise it collects every rule's errors in rule order. |
| Validators.PresenceCheck | Sources/RecordStore/Validator.swift:85-106 | A required rule without a foreign key reports exactly a missing column. |
| Validators.BaseRulesReport | Sources/RecordStore/Record.swift:76-80 | The two base rules report the missing timestamps, createdAt first. |
| Validators.StampedRecordPasses | Sources/RecordStore/Record.swift:76-99 | A record carrying both timestamps passes the base rules. |
| Validators.MissingCreatedAtIsRefused | Sources/RecordStore/Record.swift:76-99 | A record without createdAt is refused whatever the extra rules, and when no rule throws the first error names createdAt. |
| Validators.ValidatorsFor | Sources/RecordStore/Record.swift:76-85 | The base rules come first, then the type's own, each a fresh validator. |
| Validators.ValidateNext | Sources/RecordStore/Record.swift:95 | One more rule: the context grows by that rule's errors, or the run fails with its error. |
| Validators.RunValidators | Sources/RecordStore/Record.swift:94-96 | The loop over the validators ends with the context the rule list specifies, or with the first rule error. |
| Validators.ValidateRecord | Sources/RecordStore/Record.swift:91-99 | `validate(for:)` is the validation specification over the base rules and the type's own. |
| Models.SlotItemsCount | Sources/RecordStore/Model.swift:35-40 | The INSERT placeholders are one anonymous slot per column and no named slot. |
| Models.AssignmentsCount | Sources/RecordStore/Model.swift:54-57 | The UPDATE assignments have one anonymous slot per column and no named slot. |
| Models.InsertSlots | Sources/RecordStore/Model.swift:40 | The INSERT text asks for exactly one positional value per column, the number the statement binds. |
| Models.UpdateSlots | Sources/RecordStore/Model.swift:59-61 | The UPDATE text asks for one value per column plus the key, the number the statement binds. |
| Models.DeleteSlots | Sources/RecordStore/Model.swift:70 | The DELETE text's only slot is the named `:id`. |
| Models.DeleteBindsItsSlot | Sources/RecordStore/Model.swift:70-73 | The DELETE text asks for exactly the names in the dictionary it is bound with. |
| Models.FindSlots | Sources/RecordStore/Model.swift:163-164 | The lookup by key has one anonymous slot, for the key. |
| Models.Entries | Sources/RecordStore/Model.swift:32-57 | Every entry of the row is listed exactly once, with its value at the same position, in some order. |
| Models.PrepareBind | Sources/RecordStore/Model.swift:42-73 | Preparing and binding fails with the first error, or yields a fresh statement bound as the binding function says. |
| Models.InsertStatement | Sources/RecordStore/Model.swift:25-46 | The INSERT statement for the record's entries is prepared and bound with their values in the same order. |
| Models.UpdateStatement | Sources/RecordStore/Model.swift:48-67 | The UPDATE statement for the record's entries is prepared and bound with their values, then the primary key. |
| Models.DeleteStatement | Sources/RecordStore/Model.swift:69-76 | The DELETE statement is prepared and its `:id` is bound by name to the primary key. |
| Models.InsertRow | Sources/RecordStore/Model.swift:115-121 | The insert is executed. On success the new row id becomes the record's `"id"`. On failure the record is unchanged. |
| Models.Insert | Sources/RecordStore/Model.swift:106-122 | A record that fails validation is neither written nor changed, and the database is left alone. Otherwise its entries are inserted, and the new row id becomes its primary key. |
| Models.UpdateRow | Sources/RecordStore/Model.swift:133-135 | The UPDATE by key is executed with the record's entries. |
| Models.Update | Sources/RecordStore/Model.swift:124-136 | `updatedAt` is stamped before validation, whatever the outcome. A record that fails validation is not written. Otherwise its row is updated by key. |
| Models.Save | Sources/RecordStore/Model.swift:138-144 | A positive primary key takes the update path with its whole promise: `updatedAt` is stamped whatever happens, a record that fails validation is not written and the database and events stay as they were, and otherwise its row is updated by key. Any other record takes the insert path: a record that fails validation is neither written nor changed, and otherwise it is inserted, `updated` is published on success, and the new row id becomes its key. A failed write leaves the record unchanged. |
| Models.Delete | Sources/RecordStore/Model.swift:146-160 | A record without a positive primary key is left alone and nothing runs. Otherwise its row is deleted by key, bound by name. |
| Models.FindIsFirstRow | Sources/RecordStore/Model.swift:166-177 | `find` raises the not-found error for the type and id exactly when the query has no row, and otherwise returns the first row. |
| Models.Find | Sources/RecordStore/Model.swift:162-178 | The lookup by key returns a fresh record of the type holding the first row, or the error the query raised. No row gives the not-found error. |
| Models.Reload | Sources/RecordStore/Record.swift:110-114 | The record's storage becomes the row found under its primary key. On failure the storage is kept and the error raised. |
| Models.Adopt | Sources/RecordStore/Model.swift:86-88 | One more record built from the next row is appended after those already read. |
| Models.RecordsOf | Sources/RecordStore/Model.swift:80-92 | One fresh record of the type per row `rows()` reads, in order, or the first error. |
| Queries.InNames | Sources/RecordStore/Query.swift:104-107 | The placeholders of an IN clause are `:w<i>v<j>`, one per value, in order. |
| Queries.ClauseSqls | Sources/RecordStore/Query.swift:101-114 | One clause text per clause. |
| Queries.OrderSqls | Sources/RecordStore/Query.swift:118-121 | One quoted column and direction per ordering, in order. |
| Queries.SplitNames | Sources/RecordStore/Query.swift:106-107 | Two IN names built from digit strings are equal only when both numbers are. |
| Queries.ParamNameInjective | Sources/RecordStore/Query.swift:111-112 | Different comparison clauses get different value names. |
| Queries.InParamNameInjective | Sources/RecordStore/Query.swift:106-107 | Different positions in IN clauses get different value names. |
| Queries.ParamNamesDiffer | Sources/RecordStore/Query.swift:106-112 | A comparison's value name never equals an IN value's name, so no value overwrites another in the dictionary. |
| Queries.InNameSetHolds | Sources/RecordStore/Query.swift:104-108 | The names an IN clause binds are exactly `w<i>v<j>` for its value positions. |
| Queries.InNameSetAvoids | Sources/RecordStore/Query.swift:104-112 | An IN clause's names are disjoint from every comparison name and from every other clause's names. |
| Queries.InValuesKeys | Sources/RecordStore/Query.swift:105-108 | An IN clause binds exactly its own names. |
| Queries.InValuesAt | Sources/RecordStore/Query.swift:105-108 | Value j of an IN clause is bound under its own name. |
| Queries.QueryValuesKeys | Sources/RecordStore/Query.swift:96-114 | The dictionary holds exactly the names the clauses generate. |
| Queries.QueryValuesComparison | Sources/RecordStore/Query.swift:111-112 | Comparison clause i's value is bound under `w<i>`. |
| Queries.QueryValuesIn | Sources/RecordStore/Query.swift:105-108 | Value j of IN clause i is bound under `w<i>v<j>`. |
| Queries.InSlots | Sources/RecordStore/Query.swift:106 | One named slot per IN value. |
| Queries.ClauseTemplates | Sources/RecordStore/Query.swift:101-114 | One template per clause. |
| Queries.InSlotsRender | Sources/RecordStore/Query.swift:106-109 | The slots of an IN clause spell its placeholders. |
| Queries.ParamNameEnd | Sources/RecordStore/Query.swift:111 | A comparison text ends in a digit, so trimming keeps the placeholder whole. |
| Queries.ComparisonRender | Sources/RecordStore/Query.swift:111 | A comparison template spells the trimmed clause text. |
| Queries.InSqlParts | Sources/RecordStore/Query.swift:109 | The trimmed IN text is its lead, the joined placeholders and the closing parenthesis. |
| Queries.InTemplateParts | Sources/RecordStore/Query.swift:109 | The IN template renders as the same three parts. |
| Queries.InRender | Sources/RecordStore/Query.swift:109 | An IN template spells the trimmed clause text. |
| Queries.ClauseRender | Sources/RecordStore/Query.swift:103-113 | Every clause template spells its clause text. |
| Queries.ClauseTemplatesRender | Sources/RecordStore/Query.swift:101-115 | The clause templates spell the clause texts, one by one. |
| Queries.SelectSqlParts | Sources/RecordStore/Query.swift:87-130 | The generated text is the head, the WHERE part and the tail. |
| Queries.SelectRender | Sources/RecordStore/Query.swift:87-130 | The template spells exactly the text `generate` builds. |
| Queries.InSlotsNames | Sources/RecordStore/Query.swift:106-107 | The names of an IN clause's slots are the names it binds. |
| Queries.InSlotsCount | Sources/RecordStore/Query.swift:106 | An IN clause has no anonymous slot. |
| Queries.ClauseSlots | Sources/RecordStore/Query.swift:103-113 | A clause's slot names are exactly the names it binds, and it has no anonymous slot. |
| Queries.ClauseTemplatesNames | Sources/RecordStore/Query.swift:101-114 | The clauses' slot names are exactly the names bound for them. |
| Queries.ClauseTemplatesCount | Sources/RecordStore/Query.swift:101-114 | No clause has an anonymous slot. |
| Queries.SelectSlotCount | Sources/RecordStore/Query.swift:87-130 | The SELECT text holds no anonymous `?` parameter. |
| Queries.SelectSlotNames | Sources/RecordStore/Query.swift:87-138 | The SELECT text's named parameters are exactly the dictionary's keys, so binding it by name cannot miss a value. |
| Queries.UnqualifiedComparisonSql | Sources/RecordStore/Query.swift:111 | An unqualified comparison renders as the quoted column, the comparator and `:w<i>`, with the leading blank trimmed. |
| Queries.NotAsWrittenIsEq | Sources/RecordStore/Query.swift:59-61 | As written, `where(_:not:)` builds the same clause as `where(_:eq:)`. See Findings. |
| Queries.NotIsInequality | Sources/RecordStore/Query.swift:59-61 | With the inequality comparator the clause renders `!=` and differs from the equality clause. |
| Queries.Query.constructor | Sources/RecordStore/Query.swift:21-31 | A new query has no clause, no ordering, limit 0 and every column. |
| Queries.Query.Limit | Sources/RecordStore/Query.swift:33-37 | Sets the limit, keeps the clauses and orderings, and returns the same query. |
| Queries.Query.Where | Sources/RecordStore/Query.swift:75-79 | Appends a one-value clause with the comparator and qualifier given, changing nothing else. |
| Queries.Query.WhereEq | Sources/RecordStore/Query.swift:39-41 | Appends an `=` clause. |
| Queries.Query.WhereGt | Sources/RecordStore/Query.swift:43-45 | Appends a `>` clause. |
| Queries.Query.WhereLt | Sources/RecordStore/Query.swift:47-49 | Appends a `<` clause. |
| Queries.Query.WhereGte | Sources/RecordStore/Query.swift:51-53 | Appends a `>=` clause. |
| Queries.Query.WhereLte | Sources/RecordStore/Query.swift:55-57 | Appends a `<=` clause. |
| Queries.Query.WhereNotAsWritten | Sources/RecordStore/Query.swift:59-61 | As written: appends an `=` clause. |
| Queries.Query.WhereNot | Sources/RecordStore/Query.swift:59-61 | As intended: appends a `!=` clause. |
| Queries.Query.WhereIn | Sources/RecordStore/Query.swift:63-67 | Appends an IN clause over all the values. |
| Queries.Query.WhereNotIn | Sources/RecordStore/Query.swift:69-73 | Appends a NOT IN clause over all the values. |
| Queries.Query.OrderBy | Sources/RecordStore/Query.swift:81-85 | Appends the ordering, ascending by default, changing nothing else. |
| Queries.Query.NameInValues | Sources/RecordStore/Query.swift:104-108 | The inner loop produces the IN placeholders and adds each value under its name. |
| Queries.Query.ClausePart | Sources/RecordStore/Query.swift:103-113 | One iteration of the clause loop produces the clause text and adds its values. |
| Queries.Query.WhereParts | Sources/RecordStore/Query.swift:101-114 | The clause loop produces every clause text and the whole dictionary. |
| Queries.Query.Generate | Sources/RecordStore/Query.swift:87-130 | `generate()` returns the SELECT text the specification gives, with the dictionary of named values. |
| Queries.OpenResult | Sources/RecordStore/Query.swift:137-140 | Prepare, bind by name and query: the first error, or a fresh result whose pending replies are the engine's answer. |
| Queries.Run | Sources/RecordStore/Query.swift:134-151 | `query(_:)` returns one fresh record per row of the engine's answer to the generated text bound with its dictionary, in order, or the first error. |
| Operations.MigrationOf | Sources/RecordStore/Schema.swift:203-205 | A table's migration is named `CREATE_<table>` and creates that table and its indices. |
| Operations.PlainByInitial | Sources/RecordStore/Operation.swift:22-35 | A text that ends in `;` and starts with neither S nor R is an ordinary statement. |
| Operations.LedgerTextsPlain | Sources/RecordStore/Operation.swift:22-35 | The ledger's CREATE TABLE and INSERT are ordinary statements. |
| Operations.ExecutePlain | Sources/RecordStore/Database.swift:21-33 | An ordinary statement keeps the save-points. On failure it changes nothing. On success it adds one statement to the contents. |
| Operations.BlockNext | Sources/RecordStore/Operation.swift:50-52 | One more text after a prefix of the block that succeeded. |
| Operations.BlockStops | Sources/RecordStore/Operation.swift:50-52 | Once a text of the block fails, the rest never runs. |
| Operations.BlockKeepsFrames | Sources/RecordStore/Operation.swift:50-52 | A block of ordinary statements keeps the save-points and only ever extends the contents. |
| Operations.BodyKeepsFrames | Sources/RecordStore/Operation.swift:38-52 | A body of ordinary statements keeps the open save-points. |
| Operations.RunBody | Sources/RecordStore/Operation.swift:38-52 | Running `migrate(in:)` has the effect its specification gives. |
| Operations.RunBlock | Sources/RecordStore/Operation.swift:50-52 | A block migration executes its texts in order and stops at the first failure. |
| Operations.HasRun | Sources/RecordStore/Operation.swift:24-26 | The ledger lookup answers whether the first row's `hasRun` is 1, or raises the query's error. |
| Operations.RunScoped | Sources/RecordStore/Connection.swift:235-242 | The body runs, then the scope is released on success or rolled back on failure. |
| Operations.NestedAtomic | Sources/RecordStore/Operation.swift:30-33 | The nested save-point bumps the counter. When the body succeeds, its changes are kept and the save-point is gone. When it fails, the error is raised and the contents are those from before the body. |
| Operations.Nested | Sources/RecordStore/Operation.swift:30-33 | The nested save-point around `migrate(in:)` on the connection has the effect its specification gives. |
| Operations.PerformSkipsWhenRun | Sources/RecordStore/Operation.swift:22-28 | A migration the ledger already lists changes nothing past the ledger table, takes no save-point and never runs its body. |
| Operations.PerformRecordsOnlyAfterSuccess | Sources/RecordStore/Operation.swift:30-35 | A new migration whose body fails raises that error without adding its name. One whose body succeeds adds its name after the body's changes. |
| Operations.PerformMigration | Sources/RecordStore/Operation.swift:21-36 | `perform(in:)` on the connection has the effect its specification gives. |
| Operations.PerformFrames | Sources/RecordStore/Operation.swift:21-36 | A successful perform leaves the save-points as they were. A failed one leaves at most its nested save-point open, because rolling back does not close it. |
| Operations.ConnectionPerformAtomic | Sources/RecordStore/Connection.swift:247-251 | Performing a migration is all or nothing: a failure leaves the contents as they were, and a success leaves no save-point open. |
| Operations.ConnectionPerform | Sources/RecordStore/Connection.swift:247-251 | `perform(operation:)` raises `unopened` on a closed connection. Otherwise it wraps the migration in a save-point of its own. |
| Operations.Register | Sources/RecordStore/Record.swift:131-133 | `register(record:)` performs, in a save-point of its own, the migration of the schema the type's `createTableSchema()` returns: its own columns, indices and foreign keys. It raises `unopened` on a closed connection. |
| Operations.MigrationsOf | Sources/RecordStore/Record.swift:137-139 | One migration per table. |
| Operations.MigrationsOfAt | Sources/RecordStore/Record.swift:137-139 | Each table's migration sits at the table's position. |
| Operations.ApplyNext | Sources/RecordStore/Record.swift:137-139 | One more migration after a prefix that succeeded. |
| Operations.ApplyStops | Sources/RecordStore/Record.swift:137-139 | Once a migration fails, the ones after it are never performed. |
| Operations.ApplyLeavesNoFrames | Sources/RecordStore/Record.swift:136-140 | A successful `apply(schema:)` leaves no save-point open. |
| Operations.PerformNext | Sources/RecordStore/Record.swift:138 | One iteration of the loop performs the next migration as the specification says. |
| Operations.Apply | Sources/RecordStore/Record.swift:136-140 | `apply(schema:)` performs each table's migration in order, stopping at the first failure. |
| Operations.ApplyOpen | Sources/RecordStore/Record.swift:137-139 | The loop over the migrations on an open connection. |
| Coordinators.Coordinator.constructor | Sources/RecordStore/Coordinator.swift:14 | A new coordinator has no connection and has sent nothing. |
| Coordinators.Coordinator.Open | Sources/RecordStore/Coordinator.swift:16-22 | A new connection is opened with the default flags and kept only when the open succeeds. |
| Coordinators.Coordinator.Close | Sources/RecordStore/Coordinator.swift:24-26 | Closes the connection as `Connection.close` does. A closed connection stays closed and publishes `closed` again, with no engine call. An open one asks the engine to close it. A failure status raises the close error, keeps the handle and publishes nothing. Success drops the handle and publishes `closed`. The save-point counter is unchanged. |
| Coordinators.Coordinator.ApplySchema | Sources/RecordStore/Coordinator.swift:28-30 | `apply(schema:)` on the connection. |
| Coordinators.Coordinator.RunOperation | Sources/RecordStore/Coordinator.swift:76-78 | `run(_:)` performs the migration on the connection. |
| Coordinators.Coordinator.Begin | Sources/RecordStore/Coordinator.swift:33-34 | Begins the connection's save-point and hands the block a coordinated view of it. No signal is sent. A closed connection raises `unopened` with the counter and events unchanged. |
| Coordinators.Coordinator.Commit | Sources/RecordStore/Coordinator.swift:35-41 | Sends the commit signal whatever the block did, before the save-point is released or rolled back, and then finishes it as `_savepoint` does. The save-point counter is unchanged. |
| Coordinators.Coordinator.Perform | Sources/RecordStore/Coordinator.swift:32-42 | Exactly one commit signal when the save-point begins and none when it does not. On an open connection the counter goes up by one. The outcome and the database are those of the save-point around the block. |
| Coordinators.Coordinator.Invalidate | Sources/RecordStore/Coordinator.swift:88-90 | Posts the invalidation notification and changes nothing else. |
| Coordinators.Coordinator.Query | Sources/RecordStore/Coordinator.swift:66-74 | A new live query for this coordinator, with no objects and no pending change, listening to every topic. |
| Coordinators.Coordinated.Save | Sources/RecordStore/Coordinator.swift:113-117 | Sends willSave, saves through the save-point, and sends didSave only if the save succeeded. |
| Coordinators.Coordinated.Delete | Sources/RecordStore/Coordinator.swift:119-123 | Sends willDelete, deletes through the save-point, and sends didDelete only if the delete succeeded. |
| Coordinators.Coordinated.Run | Sources/RecordStore/Coordinator.swift:125-131 | Executes the text through the save-point, with no signal. |
| Coordinators.Subscription.constructor | Sources/RecordStore/Coordinator.swift:163-181 | A new subscription is live. |
| Coordinators.Subscription.Cancel | Sources/RecordStore/Coordinator.swift:251-253 | Cancelling marks it cancelled. |
| Coordinators.CancelAll | Sources/RecordStore/Coordinator.swift:249-256 | Every subscription in the set is cancelled and the set is emptied. |
| Coordinators.MarkSetsFlag | Sources/RecordStore/Coordinator.swift:215-229 | A save or delete signal sets the change flag exactly when the model is of the query's type, and changes nothing else. |
| Coordinators.QuietCommit | Sources/RecordStore/Coordinator.swift:231-234 | A commit with no pending change does nothing. |
| Coordinators.FetchOutcome | Sources/RecordStore/Coordinator.swift:190-209 | A successful fetch replaces the objects and clears the flag. A failed one keeps both and sends the error. |
| Coordinators.ReplaySnoc | Sources/RecordStore/Coordinator.swift:163-181 | Answering one more signal after a run of them. |
| Coordinators.FlagTracksMarks | Sources/RecordStore/Coordinator.swift:215-229 | Between commits, the change flag is set exactly when it was set before or some save or delete concerned the query's type. |
| Coordinators.Unconcerned | Sources/RecordStore/Coordinator.swift:215-234 | Signals about other types, and commits with nothing pending, leave a live query untouched. |
| Coordinators.MarkThenCommit | Sources/RecordStore/Coordinator.swift:215-241 | A save or delete of the query's type followed by a commit refetches the objects and clears the flag. |
| Coordinators.CoordinatedQuery.constructor | Sources/RecordStore/Coordinator.swift:157-182 | A new live query has no objects and no pending change, and listens to every topic. |
| Coordinators.CoordinatedQuery.Fetch | Sources/RecordStore/Coordinator.swift:184-209 | `fetch()` runs the query on the coordinator's connection. On success the objects are replaced and the flag is cleared. On failure the error is raised and nothing changes. |
| Coordinators.CoordinatedQuery.Refresh | Sources/RecordStore/Coordinator.swift:175-181 | The fetch a handler runs: a failure goes to the error subject. |
| Coordinators.CoordinatedQuery.OnChange | Sources/RecordStore/Coordinator.swift:215-229 | `didSave` and `didDelete` set the flag exactly when the model is of the query's type. |
| Coordinators.CoordinatedQuery.OnCommit | Sources/RecordStore/Coordinator.swift:231-241 | `didCommit` refetches only when the flag is set. |
| Coordinators.CoordinatedQuery.OnInvalidate | Sources/RecordStore/Coordinator.swift:175-181 | The invalidation notification always refetches. |
| Coordinators.CoordinatedQuery.Receive | Sources/RecordStore/Coordinator.swift:163-181 | A signal on a topic still listened to is answered as the reaction function says. Any other signal changes nothing. |
| Coordinators.CoordinatedQuery.Listening | Sources/RecordStore/Coordinator.swift:163-181 | Whether the topic is still listened to. |
| Coordinators.CoordinatedQuery.Cancel | Sources/RecordStore/Coordinator.swift:211-213 | `cancel()` cancels every subscription and leaves the objects alone, and no topic is listened to any more. |

## Left out

- `Backup.swift` and `Connection.backup(to:)` (Connection.swift:255-261) are not part of this model. They copy pages between two engine handles through the engine's backup API, which this model does not describe.
- Dispatch queues and `queue.sync` are left out. Every operation runs to completion before the next one starts, so the concurrency they serialise is not modelled.
- Combine subjects and `NotificationCenter` are left out. They become the coordinator's `signals` list, and the live query's subscriptions become the `Receive` method applied to each signal. The scheduling on `_queue` is not modelled.
- `objectWillChange`, `@Published` and `CoordinatedView` (Coordinator.swift:259-286) are SwiftUI plumbing and are left out.
- The `Log` and `os.Logger` calls are left out: logging has no effect on state.
- Weak references are modelled as ordinary references. `deinit` (Connection.swift:28, Coordinator.swift:243-246) is not modelled, because Dafny has no deallocation.
- `Double` is modelled as its 64-bit pattern (`Values.Double`), because no arithmetic is done on it.
- `Value(date:)` (Value.swift:77-79) is not a member. The clock is a `now` parameter, already converted to the value the timestamps store.
- `Models.Entries`: a Swift dictionary is iterated in an unspecified order. The method promises only that every entry appears once, with columns and values at matching positions.
- The engine (`sqlite3_*`, including `sqlite3_last_insert_rowid`) is the abstract `Sqlite` value. Its answers are parameters of the model, not computed.
- `Model.swift:154` calls `record._willDelete`, which the source never defines. `Models.Delete` takes it to do nothing.
- Records.Record.WillInsert and Records.Record.WillUpdate: the `willSave()` hook they call (Record.swift:32-44) is taken to be the base class's, which is empty. A subclass that overrides `willSave()` to change its storage before validation and the write is not modelled. `Models.Insert`, `Models.Update` and `Models.Save` state their effects for the base hook.
- Overrides of `validators()` and `createTableSchema()` in subclasses are given as data: a record kind's extra rules, and the table schema `Operations.Register` takes. Class dispatch is not modelled.
- The statement texts of `Models` (Model.swift:40, 61, 70, 163) and the FROM part of `Queries` (Query.swift:94) use the record's kind as its table name. The source uses `tableName`, which is `createTableSchema().tableName` (Record.swift:11-13). The two agree while a type keeps the default name `String(describing: self)`. The model assumes every type does, so a subclass that renames its table is not modelled.
- The class test `model is ModelType` (Coordinator.swift:216,224) is modelled as equality of the record's kind with the query's kind.
- `Coordinator.withConnection(block:)` (Coordinator.swift:80-86) hands an arbitrary block the connection. Only the invalidation it posts afterwards is modelled, as `Coordinators.Coordinator.Invalidate`.
- `Coordinated.savepoint(block:)` (Coordinator.swift:107-109) is not a member. Nesting goes through `Savepoints.Enter`/`Savepoints.Exit`, as for any save-point.
- Coordinators.Coordinated.Save: the contract states the signals sent and the outcome's effect on them. What the save does to the database is stated by `Models.Save`, which it calls.
- Coordinators.Coordinated.Delete: the contract states the signals sent. What the delete does to the database is stated by `Models.Delete`, which it calls.
- Coordinators.Coordinator.Perform: the block is given as its outcome and the database state it leaves. The call is split into `Begin` and `Commit` around the block.
- `_fetch` (Coordinator.swift:190-209) goes through `Queries.Run`. Its result is the same list of records.
- Operations.Apply: the loop over `schema.migrations` performs a list of migrations computed beforehand by `MigrationsOf`.
- `Models.Reload` returns unit, as `reload()` does. Its effect is stated on the record's storage.
- A `BlockMigration`'s block is modelled as a list of texts, each executed in turn. An arbitrary Swift closure is not modelled.
- Operations.PerformMigration: running the same migration twice is stated through `PerformSkipsWhenRun`, for a ledger that already lists the name. A general idempotence lemma over any engine is not proved, because the engine's answers for the ledger query are abstract.
- After `ROLLBACK TO` the save-point stays open, because the source never releases it. `Operations.PerformFrames` states this.
- SQL texts are modelled as templates: raw pieces plus `?` and `:name` slots. The engine's parser is not modelled.
- `trimmingCharacters(in: .whitespaces)` is modelled with blanks and tabs as the white-space set. Other Unicode spaces are not modelled.
- Queries.Query.Generate: `select` is never set by any builder in the source, so `*` is always chosen. The column list branch (Query.swift:91-93) is modelled but never reached.
- Operations.RunBody and Operations.PerformMigration require an open handle. Their callers, `Connection.perform(operation:)` and `register`, check for a closed connection first.
- Validators.RunValidators takes the existence lookup as a ghost parameter that ties each query's outcome to `LookupOn`.
- `Codable` is modelled only for `TableSchema.Options` (`Schemas.EncodeNames`, `Schemas.Decode`). The JSON coding of `TableSchema` and `Schema` is left out, because the source relies on the synthesised conformance.
- `Record.registered(inConnection:)` (Record.swift:29-31) is an empty hook and is not modelled.
- `Values.IntegerOf` and `Values.StringOf` model the `Value.integer` and `Value.string` accessors the source uses (Record.swift:16, Result.swift:115, 128). Those accessors are not defined in the files this model covers, so their meaning (the payload of that variant, else nil) is the model's.

## Findings

| source | as written | input that shows it | evidently intended | confidence | as-written member | corrected member |
|---|---|---|---|---|---|---|
| Sources/RecordStore/Connection.swift:131-132 | `noMutex` and `privateCache` share the raw value `1 << 3` | opening with `[.noMutex]` | `noMutex` asks only for SQLITE_OPEN_NOMUTEX, and `privateCache` has a bit of its own | not executed | Connections.NoMutexImpliesPrivateCache | Connections.SqlFlagsSeparatesNoMutex |
| Sources/RecordStore/Query.swift:59-61 | `where(_:not:)` builds its clause with the `=` comparator | `Query().where("name", not: "x")` | a `!=` clause, the negation of `where(_:eq:)` | not executed | Queries.NotAsWrittenIsEq | Queries.NotIsInequality |
