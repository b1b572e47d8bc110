/** The rows of a query (Result.swift): the column list read when the result
    is opened, stepping, and the conversion of the current row into a
    dictionary keyed by column name. */
module Results {
  import opened Errors
  import opened Values
  import opened Engine
  import opened Statements

  /** `Result.Column`: a column's index and name. */
  datatype Column = Column(index: int, name: string)

  /** `Result.Row`. */
  type Row = map<string, Value>

  /** The column list `init(statement:)` builds: every column must have a
      name, and the first nameless column raises columnNameReadError. */
  function ColumnsOf(names: seq<Option<string>>): (r: Outcome<seq<Column>>)
    ensures r.Ok? <==> forall i :: 0 <= i < |names| ==> names[i].Some?
    ensures r.Ok? ==> (|r.value| == |names| &&
      forall i :: 0 <= i < |names| ==> r.value[i] == Column(i, names[i].value))
    ensures r.Fail? ==> (r.error.ColumnNameReadError? &&
      var k := r.error.column;
      0 <= k < |names| && names[k].None? && forall i :: 0 <= i < k ==> names[i].Some?)
  {
    if names == [] then Ok([])
    else
      var front := ColumnsOf(names[..|names| - 1]);
      if front.Fail? then front
      else if names[|names| - 1].None? then Fail(ColumnNameReadError(|names| - 1))
      else Ok(front.value + [Column(|names| - 1, names[|names| - 1].value)])
  }

  /** `next()`: a row answers true; SQLITE_DONE and SQLITE_OK answer false;
      anything else raises the engine's error. */
  function Advance(status: int, diag: Diagnostics): (r: Outcome<bool>)
    ensures r == Ok(true) <==> status == SQLITE_ROW
    ensures r == Ok(false) <==> status == SQLITE_DONE || status == SQLITE_OK
    ensures r.Fail? ==> r.error == SqlError(status, diag.extendedCode, diag.message)
  {
    if status == SQLITE_DONE || status == SQLITE_OK then Ok(false)
    else if status == SQLITE_ROW then Ok(true)
    else
      var checked := Check(status, diag);
      if checked.Fail? then Fail(checked.error) else Ok(false)
  }

  /** The column at `index` of the current row; SQLite reports a column
      outside the row as NULL. */
  function CellAt(cells: seq<Cell>, index: int): Cell {
    if 0 <= index < |cells| then cells[index] else NullCell
  }

  /** The value `row()` reads for one column: one case per fundamental type;
      a nil blob or text buffer raises nullColumn, any other type tag
      raises unknownColumnType. */
  function CellValue(index: int, cell: Cell): (r: Outcome<Value>)
    ensures r.Ok? <==> !(cell.OtherCell? || (cell.BlobCell? && cell.bytes.None?) || (cell.TextCell? && cell.text.None?))
    ensures r.Fail? && cell.OtherCell? ==> r.error == UnknownColumnType(index, cell.tag)
    ensures r.Fail? && !cell.OtherCell? ==> r.error == NullColumn(index)
  {
    match cell
    case IntegerCell(n) => Ok(Int64(n))
    case FloatCell(d) => Ok(Real(d))
    case BlobCell(bytes) => if bytes.None? then Fail(NullColumn(index)) else Ok(Binary(bytes.value))
    case TextCell(text) => if text.None? then Fail(NullColumn(index)) else Ok(String(text.value))
    case NullCell => Ok(Null)
    case OtherCell(tag) => Fail(UnknownColumnType(index, tag))
  }

  /** A cell read back as a value keeps what the engine handed over. */
  lemma CellValueFaithful(index: int, cell: Cell)
    ensures cell.IntegerCell? ==> CellValue(index, cell) == Ok(Int64(cell.n))
    ensures cell.TextCell? && cell.text.Some? ==> CellValue(index, cell) == Ok(String(cell.text.value))
    ensures cell.BlobCell? && cell.bytes.Some? ==> CellValue(index, cell) == Ok(Binary(cell.bytes.value))
    ensures cell.NullCell? ==> CellValue(index, cell) == Ok(Null)
  {
  }

  /** `row()`: the columns in order, each stored under its name (a later
      column with the same name overwrites an earlier one); the first column
      that cannot be read aborts the row. */
  function RowOf(columns: seq<Column>, cells: seq<Cell>): (r: Outcome<Row>)
  {
    if columns == [] then Ok(map[])
    else
      var front := RowOf(columns[..|columns| - 1], cells);
      var c := columns[|columns| - 1];
      if front.Fail? then front
      else
        var v := CellValue(c.index, CellAt(cells, c.index));
        if v.Fail? then Fail(v.error) else Ok(front.value[c.name := v.value])
  }

  /** A readable row has an entry for exactly the column names. */
  lemma {:induction false} RowOfKeys(columns: seq<Column>, cells: seq<Cell>)
    requires RowOf(columns, cells).Ok?
    ensures forall name :: name in RowOf(columns, cells).value <==> exists i :: 0 <= i < |columns| && columns[i].name == name
  {
    if columns != [] {
      var n := |columns|;
      RowOfKeys(columns[..n - 1], cells);
      var front := RowOf(columns[..n - 1], cells).value;
      forall name
        ensures name in RowOf(columns, cells).value <==> exists i :: 0 <= i < n && columns[i].name == name
      {
        if name in front {
          var i :| 0 <= i < n - 1 && columns[..n - 1][i].name == name;
          assert columns[i].name == name;
        }
        if exists i :: 0 <= i < n && columns[i].name == name {
          var i :| 0 <= i < n && columns[i].name == name;
          if i < n - 1 {
            assert columns[..n - 1][i].name == name;
          }
        }
      }
    }
  }

  /** Each name holds the value of the LAST column carrying it. */
  lemma {:induction false} RowOfLastWins(columns: seq<Column>, cells: seq<Cell>, i: int)
    requires RowOf(columns, cells).Ok?
    requires 0 <= i < |columns| && forall j :: i < j < |columns| ==> columns[j].name != columns[i].name
    ensures columns[i].name in RowOf(columns, cells).value
    ensures Ok(RowOf(columns, cells).value[columns[i].name]) == CellValue(columns[i].index, CellAt(cells, columns[i].index))
  {
    var n := |columns|;
    if i < n - 1 {
      var front := columns[..n - 1];
      assert front[i] == columns[i];
      assert forall j :: i < j < n - 1 ==> front[j] == columns[j];
      RowOfLastWins(front, cells, i);
    }
  }

  /** `rows()` from the replies still to come: a row per SQLITE_ROW reply up
      to the first reply that ends the scan; a step error or an unreadable
      row aborts. */
  function RowsOf(tape: seq<Reply>, columns: seq<Column>, diagnose: int -> Diagnostics): (r: Outcome<seq<Row>>)
    ensures r.Ok? ==> |r.value| <= |tape|
  {
    if tape == [] then Ok([])
    else
      var more := Advance(tape[0].status, diagnose(tape[0].status));
      if more.Fail? then Fail(more.error)
      else if !more.value then Ok([])
      else
        var row := RowOf(columns, tape[0].cells);
        if row.Fail? then Fail(row.error)
        else
          var rest := RowsOf(tape[1..], columns, diagnose);
          if rest.Fail? then rest else Ok([row.value] + rest.value)
  }

  /** Every row `rows()` yields is a SQLITE_ROW reply read through `row()`,
      in the engine's order. */
  lemma {:induction false} RowsOfAreRows(tape: seq<Reply>, columns: seq<Column>, diagnose: int -> Diagnostics)
    requires RowsOf(tape, columns, diagnose).Ok?
    ensures var rows := RowsOf(tape, columns, diagnose).value;
      forall k :: 0 <= k < |rows| ==> tape[k].status == SQLITE_ROW && RowOf(columns, tape[k].cells) == Ok(rows[k])
  {
    if tape != [] && tape[0].status == SQLITE_ROW {
      RowsOfAreRows(tape[1..], columns, diagnose);
    }
  }

  /** `rows()` stops only where the scan ends: after the rows it returns,
      the replies are exhausted or the next one is DONE (or OK). */
  lemma {:induction false} RowsOfComplete(tape: seq<Reply>, columns: seq<Column>, diagnose: int -> Diagnostics)
    requires RowsOf(tape, columns, diagnose).Ok?
    ensures var n := |RowsOf(tape, columns, diagnose).value|;
      n == |tape| || tape[n].status == SQLITE_DONE || tape[n].status == SQLITE_OK
  {
    if tape != [] && tape[0].status == SQLITE_ROW {
      var rest := RowsOf(tape[1..], columns, diagnose);
      RowsOfComplete(tape[1..], columns, diagnose);
      assert |RowsOf(tape, columns, diagnose).value| == 1 + |rest.value|;
    }
  }

  /** `rows()` fails only at the first reply it cannot use: every reply
      before position k is a readable row, and reply k is either an error
      status, raised as the step's SQL error, or a row that cannot be read,
      raising that row's error. */
  lemma {:induction false} RowsOfFails(tape: seq<Reply>, columns: seq<Column>, diagnose: int -> Diagnostics)
    returns (k: nat)
    requires RowsOf(tape, columns, diagnose).Fail?
    ensures k < |tape|
    ensures forall j :: 0 <= j < k ==> tape[j].status == SQLITE_ROW && RowOf(columns, tape[j].cells).Ok?
    ensures var e := RowsOf(tape, columns, diagnose).error;
      || (Advance(tape[k].status, diagnose(tape[k].status)).Fail?
          && e == Advance(tape[k].status, diagnose(tape[k].status)).error)
      || (tape[k].status == SQLITE_ROW && RowOf(columns, tape[k].cells).Fail?
          && e == RowOf(columns, tape[k].cells).error)
  {
    var more := Advance(tape[0].status, diagnose(tape[0].status));
    if more.Fail? || RowOf(columns, tape[0].cells).Fail? {
      k := 0;
    } else {
      var k' := RowsOfFails(tape[1..], columns, diagnose);
      k := k' + 1;
      forall j | 0 <= j < k
        ensures tape[j].status == SQLITE_ROW && RowOf(columns, tape[j].cells).Ok?
      {
        if j > 0 {
          assert tape[j] == tape[1..][j - 1];
        }
      }
    }
  }

  /** `rows` prefixed to an outcome. */
  function Prefixed(rows: seq<Row>, rest: Outcome<seq<Row>>): Outcome<seq<Row>> {
    if rest.Fail? then rest else Ok(rows + rest.value)
  }

  /** One SQLITE_ROW reply read into `row` moves that row from the replies
      still to come to the rows already read. */
  lemma RowsOfStep(rows: seq<Row>, row: Row, tape: seq<Reply>, columns: seq<Column>, diagnose: int -> Diagnostics)
    requires tape != [] && tape[0].status == SQLITE_ROW && RowOf(columns, tape[0].cells) == Ok(row)
    ensures Prefixed(rows, RowsOf(tape, columns, diagnose)) == Prefixed(rows + [row], RowsOf(tape[1..], columns, diagnose))
  {
    var rest := RowsOf(tape[1..], columns, diagnose);
    if rest.Ok? {
      assert rows + ([row] + rest.value) == (rows + [row]) + rest.value;
    }
  }

  /** What `first()` answers for the replies `tape`: the first reply's row,
      noRows when the scan ends at once, or the step's error. */
  function FirstSpec(tape: seq<Reply>, columns: seq<Column>, diagnose: int -> Diagnostics): Outcome<Row> {
    var status := if tape == [] then SQLITE_DONE else tape[0].status;
    var more := Advance(status, diagnose(status));
    if more.Fail? then Fail(more.error)
    else if !more.value then Fail(NoRows)
    else RowOf(columns, tape[0].cells)
  }

  /** `first()` agrees with `rows()` on the first row, and raises noRows
      exactly when `rows()` finds none. */
  lemma FirstIsHeadOfRows(tape: seq<Reply>, columns: seq<Column>, diagnose: int -> Diagnostics)
    requires RowsOf(tape, columns, diagnose).Ok?
    ensures var rows := RowsOf(tape, columns, diagnose).value;
      && (rows == [] <==> FirstSpec(tape, columns, diagnose) == Fail(NoRows))
      && (rows != [] ==> FirstSpec(tape, columns, diagnose) == Ok(rows[0]))
  {
  }

  // Accessors of a row (`extension Result.Row`).

  function StringFor(row: Row, name: string): (r: Option<string>)
    ensures r.Some? <==> name in row && row[name].String?
    ensures r.Some? ==> r.value == row[name].s
  {
    if name in row then StringOf(row[name]) else None
  }

  function DataFor(row: Row, name: string): (r: Option<seq<byte>>)
    ensures r.Some? <==> name in row && row[name].Binary?
    ensures r.Some? ==> r.value == row[name].data
  {
    if name in row && row[name].Binary? then Some(row[name].data) else None
  }

  function IntegerFor(row: Row, name: string): (r: Option<int64>)
    ensures r.Some? <==> name in row && row[name].Int64?
    ensures r.Some? ==> r.value == row[name].n
  {
    if name in row then IntegerOf(row[name]) else None
  }

  function DoubleFor(row: Row, name: string): (r: Option<Double>)
    ensures r.Some? <==> name in row && row[name].Real?
    ensures r.Some? ==> r.value == row[name].d
  {
    if name in row && row[name].Real? then Some(row[name].d) else None
  }

  /** `bool(forColumn:)`: true exactly when the column holds the integer 1;
      a missing or non-integer column reads as false. */
  function BoolFor(row: Row, name: string): (r: bool)
    ensures r <==> name in row && row[name] == Int64(1)
  {
    var i := IntegerFor(row, name);
    i.Some? && i.value == 1
  }

  /** A boolean stored with `Value(booleanLiteral:)` reads back unchanged. */
  lemma BoolRoundTrip(row: Row, name: string, b: bool)
    ensures BoolFor(row[name := BoolLiteral(b)], name) == b
  {
  }

  /** Each typed accessor returns what the matching literal stored. */
  lemma AccessorsRoundTrip(row: Row, name: string, n: int64, s: string, data: seq<byte>, d: Double)
    ensures IntegerFor(row[name := IntegerLiteral(n)], name) == Some(n)
    ensures StringFor(row[name := StringLiteral(s)], name) == Some(s)
    ensures DataFor(row[name := Binary(data)], name) == Some(data)
    ensures DoubleFor(row[name := FloatLiteral(d)], name) == Some(d)
    ensures StringFor(row[name := IntegerLiteral(n)], name) == None
  {
  }

  /** A query in progress. */
  class Result {
    const statement: Statement
    const columns: seq<Column>

    constructor (statement: Statement, columns: seq<Column>)
      ensures this.statement == statement && this.columns == columns
    {
      this.statement := statement;
      this.columns := columns;
    }

    /** `init(statement:)`: read every column's name, in order. */
    static method Open(statement: Statement) returns (r: Outcome<Result>)
      ensures ColumnsOf(statement.columnNames).Fail? ==> r == Fail(ColumnsOf(statement.columnNames).error)
      ensures ColumnsOf(statement.columnNames).Ok? ==>
        r.Ok? && fresh(r.value) && r.value.statement == statement && r.value.columns == ColumnsOf(statement.columnNames).value
    {
      var names := statement.columnNames;
      var columns: seq<Column> := [];
      var i := 0;
      while i < |names|
        invariant 0 <= i <= |names|
        invariant ColumnsOf(names[..i]) == Ok(columns)
      {
        assert names[..i + 1][..i] == names[..i];
        if names[i].None? {
          assert ColumnsOf(names[..i + 1]).Fail?;
          ColumnsPrefixFails(names, i + 1);
          return Fail(ColumnNameReadError(i));
        }
        columns := columns + [Column(i, names[i].value)];
        i := i + 1;
      }
      assert names[..i] == names;
      var res := new Result(statement, columns);
      r := Ok(res);
    }

    /** The replies the statement still has to give. */
    function Pending(): seq<Reply>
      reads this, statement, statement.db
    {
      Tape(statement.cursor, statement.db, statement.sql, statement.bindings)
    }

    /** `next()`. */
    method Next() returns (r: Outcome<bool>)
      requires statement.live
      modifies statement
      ensures var tape := old(Pending());
        var status := if tape == [] then SQLITE_DONE else tape[0].status;
        && r == Advance(status, statement.db.sqlite.diagnose(status))
        && Pending() == (if tape == [] then [] else tape[1..])
        && statement.current == (if tape != [] && status == SQLITE_ROW then tape[0].cells else [])
      ensures statement.live && statement.bindings == old(statement.bindings)
    {
      var status := statement.StepQuery();
      r := Advance(status, statement.db.sqlite.diagnose(status));
    }

    /** `row()`: the current row, read column by column. */
    method ReadRow() returns (r: Outcome<Row>)
      ensures r == RowOf(columns, statement.current)
    {
      var row: Row := map[];
      var k := 0;
      while k < |columns|
        invariant 0 <= k <= |columns|
        invariant RowOf(columns[..k], statement.current) == Ok(row)
      {
        assert columns[..k + 1][..k] == columns[..k];
        var c := columns[k];
        var v := CellValue(c.index, CellAt(statement.current, c.index));
        if v.Fail? {
          RowPrefixFails(columns, statement.current, k + 1);
          return Fail(v.error);
        }
        row := row[c.name := v.value];
        k := k + 1;
      }
      assert columns[..k] == columns;
      r := Ok(row);
    }

    /** `first()`: step once; a row is read, the end of the scan raises
        noRows, a step error is raised as is. */
    method First() returns (r: Outcome<Row>)
      requires statement.live
      modifies statement
      ensures r == FirstSpec(old(Pending()), columns, statement.db.sqlite.diagnose)
      ensures Pending() == (if old(Pending()) == [] then [] else old(Pending())[1..])
      ensures statement.live && statement.bindings == old(statement.bindings)
    {
      var more := Next();
      if more.Fail? {
        return Fail(more.error);
      }
      if !more.value {
        return Fail(NoRows);
      }
      r := ReadRow();
    }

    /** `rows()`: step until the scan ends, reading each row. */
    method Rows() returns (r: Outcome<seq<Row>>)
      requires statement.live
      modifies statement
      ensures r == RowsOf(old(Pending()), columns, statement.db.sqlite.diagnose)
      ensures statement.live && statement.bindings == old(statement.bindings)
    {
      var rows: seq<Row> := [];
      ghost var whole := Pending();
      assert Prefixed(rows, RowsOf(whole, columns, statement.db.sqlite.diagnose)) == RowsOf(whole, columns, statement.db.sqlite.diagnose) by {
        assert forall x: seq<Row> :: [] + x == x;
      }
      while true
        invariant statement.live && statement.bindings == old(statement.bindings)
        invariant RowsOf(whole, columns, statement.db.sqlite.diagnose) ==
          Prefixed(rows, RowsOf(Pending(), columns, statement.db.sqlite.diagnose))
        decreases |Pending()|
      {
        ghost var tape := Pending();
        var more := Next();
        if more.Fail? {
          return Fail(more.error);
        }
        if !more.value {
          assert rows + [] == rows;
          return Ok(rows);
        }
        var row := ReadRow();
        if row.Fail? {
          return Fail(row.error);
        }
        RowsOfStep(rows, row.value, tape, columns, statement.db.sqlite.diagnose);
        rows := rows + [row.value];
      }
    }
  }

  /** A failure in a prefix of the column names is the failure of the whole. */
  lemma {:induction false} ColumnsPrefixFails(names: seq<Option<string>>, i: nat)
    requires i <= |names| && ColumnsOf(names[..i]).Fail?
    ensures ColumnsOf(names) == ColumnsOf(names[..i])
  {
    if i < |names| {
      assert names[..|names| - 1][..i] == names[..i];
      ColumnsPrefixFails(names[..|names| - 1], i);
    } else {
      assert names[..i] == names;
    }
  }

  /** A column that cannot be read aborts the whole row. */
  lemma {:induction false} RowPrefixFails(columns: seq<Column>, cells: seq<Cell>, i: nat)
    requires i <= |columns| && RowOf(columns[..i], cells).Fail?
    ensures RowOf(columns, cells) == RowOf(columns[..i], cells)
  {
    if i < |columns| {
      assert columns[..|columns| - 1][..i] == columns[..i];
      RowPrefixFails(columns[..|columns| - 1], cells, i);
    } else {
      assert columns[..i] == columns;
    }
  }
}
