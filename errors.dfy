/** Result codes of the SQLite engine, the error taxonomy of the layer and the
    status check every engine call goes through (Errors.swift). */
module Errors {

  // Primary result codes of the SQLite C interface.
  const SQLITE_OK := 0
  const SQLITE_ERROR := 1
  const SQLITE_BUSY := 5
  const SQLITE_LOCKED := 6
  const SQLITE_MISUSE := 21
  const SQLITE_ROW := 100
  const SQLITE_DONE := 101

  // Fundamental column type tags reported by sqlite3_column_type.
  const SQLITE_INTEGER := 1
  const SQLITE_FLOAT := 2
  const SQLITE_TEXT := 3
  const SQLITE_BLOB := 4
  const SQLITE_NULL := 5

  /** Every error the layer raises. The Swift source spreads these over
      ConnectionError, SQLError, StatementError, ResultError, NotFoundError,
      ValidationError and ColumnValidate.Error; here they are one sum type. */
  datatype Error =
    // ConnectionError
    | OpenPath(reason: string)
    | OpenFailure(status: int)
    | CloseFailure(status: int)
    | Unopened
    | NoConnection
    | Completed
    // SQLError: the engine status, the handle's extended code and message
    | SqlError(errCode: int, extendedErrCode: int, message: string)
    // StatementError
    | SqlGenerationError
    | UnexpectedParameterCount(expected: int)
    | UnnamedParameter(index: int)
    | MissingValueForNamedParameter(name: string)
    // ResultError
    | ColumnNameReadError(column: int)
    | UnknownColumnType(column: int, tag: int)
    | NullColumn(column: int)
    | NoRows
    // NotFoundError: the record type and the requested row id
    | NotFound(typeName: string, id: int)
    // ColumnValidate.Error and ValidationError
    | ColumnInvalid(field: string, messages: seq<string>)
    | ValidationFailed(errors: seq<Error>)
    // an error thrown by caller code (a block, a migration body)
    | Raised(reason: string)

  datatype Option<+T> = None | Some(value: T)

  /** The outcome of a call that either returns a value or throws. */
  datatype Outcome<+T> = Ok(value: T) | Fail(error: Error)

  /** What the engine reports about its last failure: sqlite3_errmsg and
      sqlite3_extended_errcode. */
  datatype Diagnostics = Diagnostics(message: string, extendedCode: int)

  /** The success set SQLError.check uses when the caller names none. */
  const DefaultSuccess: set<int> := {SQLITE_OK}

  /** SQLError.check: accept `status` when it is in `success`; otherwise raise
      an SQLError carrying the status and the handle's diagnostics. */
  function Check(status: int, diag: Diagnostics, success: set<int> := DefaultSuccess): (r: Outcome<()>)
    ensures r.Ok? <==> status in success
    ensures r.Fail? ==> r.error.SqlError? && r.error.errCode == status
    ensures r.Fail? ==> r.error.extendedErrCode == diag.extendedCode && r.error.message == diag.message
  {
    if status in success then Ok(()) else Fail(SqlError(status, diag.extendedCode, diag.message))
  }

  /** With the default success set only SQLITE_OK is accepted; in particular
      neither a row nor a finished step passes. */
  lemma DefaultCheckAcceptsOnlyOk(status: int, diag: Diagnostics)
    ensures Check(status, diag).Ok? <==> status == SQLITE_OK
    ensures Check(SQLITE_ROW, diag).Fail? && Check(SQLITE_DONE, diag).Fail?
  {
  }
}
