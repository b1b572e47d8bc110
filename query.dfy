/** Queries (Query.swift): a builder that collects WHERE clauses, orderings
    and a limit for one record type, the SELECT text and the named values it
    generates, and running it against a database. */
module Queries {
  import opened Errors
  import opened Values
  import opened Text
  import opened Engine
  import opened Statements
  import opened Results
  import opened Connections
  import opened Databases
  import opened Records
  import opened Models

  newtype uint64 = x: int | 0 <= x < 0x1_0000_0000_0000_0000

  datatype Direction = Ascending | Descending

  /** `OrderDirection.rawValue`. */
  function DirectionSql(d: Direction): string {
    match d
    case Ascending => "ASC"
    case Descending => "DESC"
  }

  /** A WHERE clause: the column, its values (one for a comparison, any
      number for IN), the comparator ("" for IN) and the qualifier. */
  datatype Clause = Clause(name: string, values: seq<Value>, comparator: string, qualifier: string)

  datatype Order = Order(name: string, direction: Direction)

  /** A clause `generate` can render: a comparison carries its one value. */
  predicate Renderable(c: Clause) {
    c.comparator != "" ==> |c.values| == 1
  }

  // The clause each builder appends.

  function Comparison(column: string, v: Value, comparator: string, qualifier: string): Clause {
    Clause(column, [v], comparator, qualifier)
  }

  function EqClause(column: string, v: Value): Clause { Comparison(column, v, "=", "") }
  function GtClause(column: string, v: Value): Clause { Comparison(column, v, ">", "") }
  function LtClause(column: string, v: Value): Clause { Comparison(column, v, "<", "") }
  function GteClause(column: string, v: Value): Clause { Comparison(column, v, ">=", "") }
  function LteClause(column: string, v: Value): Clause { Comparison(column, v, "<=", "") }

  /** `where(_:not:)` as the source writes it: the same comparator as `eq`. */
  function NotClauseAsWritten(column: string, v: Value): Clause { Comparison(column, v, "=", "") }

  /** `where(_:not:)` as evidently intended: the inequality comparator. */
  function NotClause(column: string, v: Value): Clause { Comparison(column, v, "!=", "") }

  function InClause(column: string, vs: seq<Value>): Clause { Clause(column, vs, "", "") }
  function NotInClause(column: string, vs: seq<Value>): Clause { Clause(column, vs, "", "NOT") }

  // The generated text.

  /** The value name of comparison clause `i`. */
  function ParamName(i: nat): string {
    "w" + NatToString(i)
  }

  /** The value name of the `j`-th value of IN clause `i`. */
  function InParamName(i: nat, j: nat): string {
    "w" + NatToString(i) + "v" + NatToString(j)
  }

  /** The placeholders of the first `n` values of IN clause `i`. */
  function InNames(i: nat, n: nat): (r: seq<string>)
    ensures |r| == n
    ensures forall j :: 0 <= j < n ==> r[j] == ":" + InParamName(i, j)
  {
    if n == 0 then [] else InNames(i, n - 1) + [":" + InParamName(i, n - 1)]
  }

  /** The text of clause `i`, trimmed of surrounding whitespace. */
  function InText(qualifier: string, name: string, names: seq<string>): string {
    qualifier + " " + Escape(name) + " IN (" + Join(names, ", ") + ")"
  }

  function ComparisonText(qualifier: string, name: string, comparator: string, param: string): string {
    qualifier + " " + Escape(name) + " " + comparator + " " + ":" + param
  }

  function ClauseSql(i: nat, c: Clause): string {
    if c.comparator == "" then
      Trim(InText(c.qualifier, c.name, InNames(i, |c.values|)), Whitespaces)
    else
      Trim(ComparisonText(c.qualifier, c.name, c.comparator, ParamName(i)), Whitespaces)
  }

  /** The texts of the clauses, each numbered by its position. */
  function ClauseSqls(ws: seq<Clause>): (r: seq<string>)
    ensures |r| == |ws|
  {
    if ws == [] then [] else ClauseSqls(ws[..|ws| - 1]) + [ClauseSql(|ws| - 1, ws[|ws| - 1])]
  }

  /** `"<column>" ASC|DESC`, one per ordering. */
  function OrderSqls(os: seq<Order>): (r: seq<string>)
    ensures |r| == |os|
    ensures forall i :: 0 <= i < |os| ==> r[i] == Escape(os[i].name) + " " + DirectionSql(os[i].direction)
  {
    if os == [] then [] else OrderSqls(os[..|os| - 1]) + [Escape(os[|os| - 1].name) + " " + DirectionSql(os[|os| - 1].direction)]
  }

  /** `SELECT <columns> FROM <table>`, every column when none is chosen. */
  function HeadSql(select: seq<string>, table: string): string {
    (if select == [] then "SELECT" + " *" else "SELECT" + " " + Join(EscapeAll(select), ", ")) + " FROM " + Escape(table)
  }

  /** The WHERE clauses joined by AND, when there are any. */
  function WhereSql(ws: seq<Clause>): string {
    if ws == [] then "" else " WHERE " + Join(ClauseSqls(ws), " AND ")
  }

  /** The orderings, when there are any. */
  function OrderSql(os: seq<Order>): string {
    if os == [] then "" else " ORDER BY " + Join(OrderSqls(os), ", ")
  }

  /** The limit, when it is positive. */
  function LimitSql(limit: uint64): string {
    if limit > 0 then " LIMIT " + NatToString(limit as nat) else ""
  }

  /** The text `generate` builds. */
  function SelectSql(select: seq<string>, table: string, ws: seq<Clause>, os: seq<Order>, limit: uint64): string {
    HeadSql(select, table) + WhereSql(ws) + OrderSql(os) + LimitSql(limit) + ";"
  }

  /** The values of the first `n` values of IN clause `i`, by name. */
  function InValues(i: nat, vs: seq<Value>): map<string, Value> {
    if vs == [] then map[] else InValues(i, vs[..|vs| - 1])[InParamName(i, |vs| - 1) := vs[|vs| - 1]]
  }

  function ClauseValues(i: nat, c: Clause): map<string, Value>
    requires Renderable(c)
  {
    if c.comparator == "" then InValues(i, c.values) else map[ParamName(i) := c.values[0]]
  }

  /** The values `generate` collects, clause after clause. */
  function QueryValues(ws: seq<Clause>): map<string, Value>
    requires forall c <- ws :: Renderable(c)
  {
    if ws == [] then map[] else QueryValues(ws[..|ws| - 1]) + ClauseValues(|ws| - 1, ws[|ws| - 1])
  }

  // Every value gets a name of its own.

  /** Names with the same digits after the same prefix are the same name,
      and a run of digits never holds the separator 'v'. */
  lemma SplitNames(a: string, b: string, a2: string, b2: string)
    requires AllDigits(a) && AllDigits(b) && AllDigits(a2) && AllDigits(b2)
    ensures "w" + a + "v" + b == "w" + a2 + "v" + b2 ==> a == a2 && b == b2
  {
    var s := "w" + a + "v" + b;
    var s2 := "w" + a2 + "v" + b2;
    if |a| < |a2| {
      assert s[1 + |a|] == 'v' != a2[|a|] == s2[1 + |a|];
    } else if |a2| < |a| {
      assert s2[1 + |a2|] == 'v' != a[|a2|] == s[1 + |a2|];
    } else if s == s2 {
      assert a == s[1..1 + |a|] == s2[1..1 + |a2|] == a2;
      assert b == s[2 + |a|..] == s2[2 + |a2|..] == b2;
    }
  }

  lemma ParamNameInjective(i: nat, j: nat)
    ensures ParamName(i) == ParamName(j) ==> i == j
  {
    if ParamName(i) == ParamName(j) {
      assert NatToString(i) == ParamName(i)[1..] == ParamName(j)[1..] == NatToString(j);
      NatToStringInjective(i, j);
    }
  }

  lemma InParamNameInjective(i: nat, j: nat, i2: nat, j2: nat)
    ensures InParamName(i, j) == InParamName(i2, j2) ==> i == i2 && j == j2
  {
    if InParamName(i, j) == InParamName(i2, j2) {
      SplitNames(NatToString(i), NatToString(j), NatToString(i2), NatToString(j2));
      NatToStringInjective(i, i2);
      NatToStringInjective(j, j2);
    }
  }

  /** A comparison's name never equals a name inside an IN list. */
  lemma ParamNamesDiffer(i: nat, i2: nat, j: nat)
    ensures ParamName(i) != InParamName(i2, j)
  {
    var a := NatToString(i);
    var a2 := NatToString(i2);
    if |a| > |a2| {
      assert InParamName(i2, j)[1 + |a2|] == 'v';
      assert ParamName(i)[1 + |a2|] == a[|a2|];
    } else {
      assert |ParamName(i)| < |InParamName(i2, j)|;
    }
  }

  /** The names of the first `n` values of IN clause `i`. */
  function InNameSet(i: nat, n: nat): set<string> {
    if n == 0 then {} else InNameSet(i, n - 1) + {InParamName(i, n - 1)}
  }

  /** The names clause `i` gives its values. */
  function ClauseNames(i: nat, c: Clause): set<string> {
    if c.comparator == "" then InNameSet(i, |c.values|) else {ParamName(i)}
  }

  /** The names of all values of the clauses, clause by clause. */
  function NameSet(ws: seq<Clause>): set<string> {
    if ws == [] then {} else NameSet(ws[..|ws| - 1]) + ClauseNames(|ws| - 1, ws[|ws| - 1])
  }

  /** The names of IN clause `i` are the value numbers under that clause's
      number, and no other name. */
  lemma {:induction false} InNameSetHolds(i: nat, n: nat, k: string)
    ensures k in InNameSet(i, n) <==> exists j :: 0 <= j < n && k == InParamName(i, j)
  {
    if n > 0 {
      InNameSetHolds(i, n - 1, k);
      var last := InParamName(i, n - 1);
      assert InNameSet(i, n) == InNameSet(i, n - 1) + {last};
      if k == last {
        assert 0 <= n - 1 < n && k == InParamName(i, n - 1);
      } else if exists j :: 0 <= j < n && k == InParamName(i, j) {
        var j :| 0 <= j < n && k == InParamName(i, j);
        assert j < n - 1;
      }
    }
  }

  /** No comparison's name and no name of another IN clause is among the
      names of IN clause `i`. */
  lemma InNameSetAvoids(i: nat, n: nat, x: nat, i2: nat, j2: nat)
    requires i2 != i
    ensures ParamName(x) !in InNameSet(i, n)
    ensures InParamName(i2, j2) !in InNameSet(i, n)
  {
    InNameSetHolds(i, n, ParamName(x));
    InNameSetHolds(i, n, InParamName(i2, j2));
    forall j ensures ParamName(x) != InParamName(i, j) && InParamName(i2, j2) != InParamName(i, j) {
      ParamNamesDiffer(x, i, j);
      InParamNameInjective(i2, j2, i, j);
    }
  }

  lemma {:induction false} InValuesKeys(i: nat, vs: seq<Value>)
    ensures InValues(i, vs).Keys == InNameSet(i, |vs|)
  {
    if vs != [] {
      InValuesKeys(i, vs[..|vs| - 1]);
    }
  }

  /** Value `j` of an IN clause is bound under its own name. */
  lemma {:induction false} InValuesAt(i: nat, vs: seq<Value>, j: nat)
    requires j < |vs|
    ensures InParamName(i, j) in InValues(i, vs) && InValues(i, vs)[InParamName(i, j)] == vs[j]
  {
    if j < |vs| - 1 {
      InValuesAt(i, vs[..|vs| - 1], j);
      InParamNameInjective(i, j, i, |vs| - 1);
    }
  }

  /** The named values `generate` collects are exactly the names of the
      clauses' values. */
  lemma {:induction false} QueryValuesKeys(ws: seq<Clause>)
    requires forall c <- ws :: Renderable(c)
    ensures QueryValues(ws).Keys == NameSet(ws)
  {
    if ws != [] {
      var n := |ws| - 1;
      QueryValuesKeys(ws[..n]);
      InValuesKeys(n, ws[n].values);
    }
  }

  /** Each comparison's value is bound under its own name, never overwritten
      by a later clause. */
  lemma {:induction false} QueryValuesComparison(ws: seq<Clause>, i: nat)
    requires forall c <- ws :: Renderable(c)
    requires i < |ws| && ws[i].comparator != "" && Renderable(ws[i])
    ensures ParamName(i) in QueryValues(ws) && QueryValues(ws)[ParamName(i)] == ws[i].values[0]
  {
    var n := |ws| - 1;
    if i < n {
      assert ws[..n][i] == ws[i];
      QueryValuesComparison(ws[..n], i);
      ParamNameInjective(i, n);
      InValuesKeys(n, ws[n].values);
      InNameSetAvoids(n, |ws[n].values|, i, n + 1, 0);
    }
  }

  /** Each value of an IN clause is bound under its own name, never
      overwritten by a later clause. */
  lemma {:induction false} QueryValuesIn(ws: seq<Clause>, i: nat, j: nat)
    requires forall c <- ws :: Renderable(c)
    requires i < |ws| && ws[i].comparator == "" && j < |ws[i].values|
    ensures InParamName(i, j) in QueryValues(ws) && QueryValues(ws)[InParamName(i, j)] == ws[i].values[j]
  {
    var n := |ws| - 1;
    if i < n {
      assert ws[..n][i] == ws[i];
      QueryValuesIn(ws[..n], i, j);
      ParamNamesDiffer(n, i, j);
      InValuesKeys(n, ws[n].values);
      InNameSetAvoids(n, |ws[n].values|, 0, i, j);
    } else {
      InValuesAt(i, ws[i].values, j);
    }
  }

  // The generated text as a template: its named slots are the values.

  /** One named slot per value of IN clause `i`. */
  function InSlots(i: nat, n: nat): (r: seq<seq<Piece>>)
    ensures |r| == n
    ensures forall j :: 0 <= j < n ==> r[j] == [NamedSlot(InParamName(i, j))]
  {
    if n == 0 then [] else InSlots(i, n - 1) + [[NamedSlot(InParamName(i, n - 1))]]
  }

  /** The text before the first slot of a clause, trimmed at its start. */
  function InLead(c: Clause): string {
    TrimStart(c.qualifier + " " + Escape(c.name) + " IN (", Whitespaces)
  }

  function ComparisonLead(c: Clause): string {
    TrimStart(c.qualifier + " " + Escape(c.name) + " " + c.comparator + " ", Whitespaces)
  }

  function ClauseTemplate(i: nat, c: Clause): seq<Piece> {
    if c.comparator == "" then
      [Raw(InLead(c))] + JoinPieces(InSlots(i, |c.values|), ", ") + [Raw(")")]
    else
      [Raw(ComparisonLead(c)), NamedSlot(ParamName(i))]
  }

  function ClauseTemplates(ws: seq<Clause>): (r: seq<seq<Piece>>)
    ensures |r| == |ws|
  {
    if ws == [] then [] else ClauseTemplates(ws[..|ws| - 1]) + [ClauseTemplate(|ws| - 1, ws[|ws| - 1])]
  }

  /** What follows the WHERE clauses: orderings, limit and semicolon. */
  function TailSql(os: seq<Order>, limit: uint64): string {
    OrderSql(os) + LimitSql(limit) + ";"
  }

  /** The SELECT text as a template: the head, the clauses joined by AND
      with their named slots, and the tail. */
  function SelectTemplate(select: seq<string>, table: string, ws: seq<Clause>, os: seq<Order>, limit: uint64): seq<Piece> {
    if ws == [] then [Raw(HeadSql(select, table) + TailSql(os, limit))]
    else [Raw(HeadSql(select, table) + " WHERE ")] + JoinPieces(ClauseTemplates(ws), " AND ") + [Raw(TailSql(os, limit))]
  }

  /** The texts of an IN clause's slots are its placeholders. */
  lemma {:induction false} InSlotsRender(i: nat, n: nat)
    ensures RenderAll(InSlots(i, n)) == InNames(i, n)
  {
    if n > 0 {
      InSlotsRender(i, n - 1);
      RenderAllSnoc(InSlots(i, n - 1), [NamedSlot(InParamName(i, n - 1))]);
      RenderNamedSlot(InParamName(i, n - 1));
    }
  }

  /** A comparison's placeholder ends in a digit, which trimming keeps. */
  lemma ParamNameEnd(i: nat)
    ensures IsDigit(ParamName(i)[|ParamName(i)| - 1])
  {
    assert ParamName(i)[|ParamName(i)| - 1] == NatToString(i)[|NatToString(i)| - 1];
  }

  /** The template of a comparison spells its trimmed text. */
  lemma ComparisonRender(i: nat, c: Clause)
    requires c.comparator != ""
    ensures Render(ClauseTemplate(i, c)) == ClauseSql(i, c)
  {
    var lead := c.qualifier + " " + Escape(c.name) + " " + c.comparator + " ";
    var slot := ":" + ParamName(i);
    assert ComparisonText(c.qualifier, c.name, c.comparator, ParamName(i)) == lead + slot;
    assert lead[|c.qualifier| + 1] == '"';
    TrimStartAppend(lead, slot, Whitespaces, |c.qualifier| + 1);
    ParamNameEnd(i);
    var trimmed := TrimStart(lead, Whitespaces) + slot;
    assert trimmed[|trimmed| - 1] == ParamName(i)[|ParamName(i)| - 1];
    TrimEndKeeps(trimmed, Whitespaces);
    assert ClauseTemplate(i, c) == [Raw(ComparisonLead(c))] + [NamedSlot(ParamName(i))];
    RenderAppend([Raw(ComparisonLead(c))], [NamedSlot(ParamName(i))]);
    RenderRaw(ComparisonLead(c));
    RenderNamedSlot(ParamName(i));
  }

  /** The trimmed text of an IN clause: its lead, the joined names, and the
      closing parenthesis. */
  lemma InSqlParts(i: nat, c: Clause)
    requires c.comparator == ""
    ensures ClauseSql(i, c) == InLead(c) + (Join(InNames(i, |c.values|), ", ") + ")")
  {
    var lead := c.qualifier + " " + Escape(c.name) + " IN (";
    var rest := Join(InNames(i, |c.values|), ", ") + ")";
    assert InText(c.qualifier, c.name, InNames(i, |c.values|)) == lead + rest;
    assert lead[|c.qualifier| + 1] == '"';
    TrimStartAppend(lead, rest, Whitespaces, |c.qualifier| + 1);
    var trimmed := TrimStart(lead, Whitespaces) + rest;
    assert trimmed[|trimmed| - 1] == ')';
    TrimEndKeeps(trimmed, Whitespaces);
  }

  /** The template of an IN clause renders as the same three parts. */
  lemma InTemplateParts(i: nat, c: Clause)
    requires c.comparator == ""
    ensures Render(ClauseTemplate(i, c)) == InLead(c) + (Join(InNames(i, |c.values|), ", ") + ")")
  {
    var slots := JoinPieces(InSlots(i, |c.values|), ", ");
    RenderAppend([Raw(InLead(c))] + slots, [Raw(")")]);
    RenderAppend([Raw(InLead(c))], slots);
    JoinPiecesRender(InSlots(i, |c.values|), ", ");
    InSlotsRender(i, |c.values|);
    RenderRaw(")");
    RenderRaw(InLead(c));
  }

  /** The template of an IN clause spells its trimmed text. */
  lemma InRender(i: nat, c: Clause)
    requires c.comparator == ""
    ensures Render(ClauseTemplate(i, c)) == ClauseSql(i, c)
  {
    InSqlParts(i, c);
    InTemplateParts(i, c);
  }

  lemma ClauseRender(i: nat, c: Clause)
    ensures Render(ClauseTemplate(i, c)) == ClauseSql(i, c)
  {
    if c.comparator == "" {
      InRender(i, c);
    } else {
      ComparisonRender(i, c);
    }
  }

  /** The clause templates spell the clause texts, one by one. */
  lemma {:induction false} ClauseTemplatesRender(ws: seq<Clause>)
    ensures RenderAll(ClauseTemplates(ws)) == ClauseSqls(ws)
  {
    if ws != [] {
      var n := |ws| - 1;
      ClauseTemplatesRender(ws[..n]);
      ClauseRender(n, ws[n]);
      var r := RenderAll(ClauseTemplates(ws));
      assert forall k :: 0 <= k < n ==> r[k] == RenderAll(ClauseTemplates(ws[..n]))[k];
    }
  }

  /** The text `generate` builds is its head, its WHERE part and its tail. */
  lemma SelectSqlParts(select: seq<string>, table: string, ws: seq<Clause>, os: seq<Order>, limit: uint64)
    ensures SelectSql(select, table, ws, os, limit) == HeadSql(select, table) + WhereSql(ws) + TailSql(os, limit)
  {
    var hw := HeadSql(select, table) + WhereSql(ws);
    AppendAssoc(hw, OrderSql(os), LimitSql(limit));
    AppendAssoc(hw, OrderSql(os) + LimitSql(limit), ";");
  }

  /** The template spells the text `generate` builds. */
  lemma SelectRender(select: seq<string>, table: string, ws: seq<Clause>, os: seq<Order>, limit: uint64)
    ensures Render(SelectTemplate(select, table, ws, os, limit)) == SelectSql(select, table, ws, os, limit)
  {
    SelectSqlParts(select, table, ws, os, limit);
    AppendAssoc(HeadSql(select, table), " WHERE ", Join(ClauseSqls(ws), " AND "));
    var head := [Raw(HeadSql(select, table) + " WHERE ")];
    var tail := [Raw(TailSql(os, limit))];
    if ws == [] {
      RenderRaw(HeadSql(select, table) + TailSql(os, limit));
    } else {
      var middle := JoinPieces(ClauseTemplates(ws), " AND ");
      RenderAppend(head + middle, tail);
      RenderAppend(head, middle);
      RenderRaw(HeadSql(select, table) + " WHERE ");
      RenderRaw(TailSql(os, limit));
      JoinPiecesRender(ClauseTemplates(ws), " AND ");
      ClauseTemplatesRender(ws);
    }
  }

  /** The names of the named slots of a template, as a set. */
  function SlotNameSet(ps: seq<Piece>): set<string> {
    set k | k in SlotNames(ps)
  }

  lemma {:induction false} InSlotsNames(i: nat, n: nat)
    ensures (set k | k in SlotNamesAll(InSlots(i, n))) == InNameSet(i, n)
  {
    if n > 0 {
      InSlotsNames(i, n - 1);
      SlotNamesAllSnoc(InSlots(i, n - 1), [NamedSlot(InParamName(i, n - 1))]);
      SlotsCons(NamedSlot(InParamName(i, n - 1)), []);
      assert [NamedSlot(InParamName(i, n - 1))] + [] == [NamedSlot(InParamName(i, n - 1))];
    }
  }

  lemma {:induction false} InSlotsCount(i: nat, n: nat)
    ensures SlotCountAll(InSlots(i, n)) == 0
  {
    if n > 0 {
      InSlotsCount(i, n - 1);
      SlotCountAllSnoc(InSlots(i, n - 1), [NamedSlot(InParamName(i, n - 1))]);
      SlotsCons(NamedSlot(InParamName(i, n - 1)), []);
      assert [NamedSlot(InParamName(i, n - 1))] + [] == [NamedSlot(InParamName(i, n - 1))];
    }
  }

  /** A clause's template has a named slot for each of its values and no
      anonymous slot. */
  lemma ClauseSlots(i: nat, c: Clause)
    ensures SlotNameSet(ClauseTemplate(i, c)) == ClauseNames(i, c)
    ensures SlotCount(ClauseTemplate(i, c)) == 0
  {
    if c.comparator == "" {
      var slots := JoinPieces(InSlots(i, |c.values|), ", ");
      SlotNamesAppend([Raw(InLead(c))] + slots, [Raw(")")]);
      SlotNamesAppend([Raw(InLead(c))], slots);
      SlotCountAppend([Raw(InLead(c))] + slots, [Raw(")")]);
      SlotCountAppend([Raw(InLead(c))], slots);
      SlotsCons(Raw(InLead(c)), []);
      SlotsCons(Raw(")"), []);
      assert [Raw(InLead(c))] + [] == [Raw(InLead(c))];
      assert [Raw(")")] + [] == [Raw(")")];
      JoinPiecesSlots(InSlots(i, |c.values|), ", ");
      InSlotsNames(i, |c.values|);
      InSlotsCount(i, |c.values|);
    } else {
      SlotsCons(Raw(ComparisonLead(c)), [NamedSlot(ParamName(i))]);
      SlotsCons(NamedSlot(ParamName(i)), []);
      assert [NamedSlot(ParamName(i))] + [] == [NamedSlot(ParamName(i))];
      assert ClauseTemplate(i, c) == [Raw(ComparisonLead(c))] + [NamedSlot(ParamName(i))];
    }
  }

  lemma {:induction false} ClauseTemplatesNames(ws: seq<Clause>)
    ensures (set k | k in SlotNamesAll(ClauseTemplates(ws))) == NameSet(ws)
  {
    if ws != [] {
      var n := |ws| - 1;
      ClauseTemplatesNames(ws[..n]);
      SlotNamesAllSnoc(ClauseTemplates(ws[..n]), ClauseTemplate(n, ws[n]));
      ClauseSlots(n, ws[n]);
    }
  }

  lemma {:induction false} ClauseTemplatesCount(ws: seq<Clause>)
    ensures SlotCountAll(ClauseTemplates(ws)) == 0
  {
    if ws != [] {
      var n := |ws| - 1;
      ClauseTemplatesCount(ws[..n]);
      SlotCountAllSnoc(ClauseTemplates(ws[..n]), ClauseTemplate(n, ws[n]));
      ClauseSlots(n, ws[n]);
    }
  }

  /** The SELECT text holds no anonymous `?` parameter. */
  lemma SelectSlotCount(select: seq<string>, table: string, ws: seq<Clause>, os: seq<Order>, limit: uint64)
    ensures SlotCount(SelectTemplate(select, table, ws, os, limit)) == 0
  {
    var head := [Raw(HeadSql(select, table) + " WHERE ")];
    var tail := [Raw(TailSql(os, limit))];
    if ws == [] {
      SlotsCons(Raw(HeadSql(select, table) + TailSql(os, limit)), []);
      assert [Raw(HeadSql(select, table) + TailSql(os, limit))] + [] == SelectTemplate(select, table, ws, os, limit);
    } else {
      var middle := JoinPieces(ClauseTemplates(ws), " AND ");
      SlotCountAppend(head + middle, tail);
      SlotCountAppend(head, middle);
      SlotsCons(head[0], []);
      SlotsCons(tail[0], []);
      assert head + [] == head && tail + [] == tail;
      JoinPiecesSlots(ClauseTemplates(ws), " AND ");
      ClauseTemplatesCount(ws);
    }
  }

  /** Every named parameter of the SELECT text has a value among those
      `generate` collects, and every collected value has a parameter. */
  lemma SelectSlotNames(select: seq<string>, table: string, ws: seq<Clause>, os: seq<Order>, limit: uint64)
    requires forall c <- ws :: Renderable(c)
    ensures SlotNameSet(SelectTemplate(select, table, ws, os, limit)) == QueryValues(ws).Keys
  {
    QueryValuesKeys(ws);
    var head := [Raw(HeadSql(select, table) + " WHERE ")];
    var tail := [Raw(TailSql(os, limit))];
    if ws == [] {
      SlotsCons(Raw(HeadSql(select, table) + TailSql(os, limit)), []);
      assert [Raw(HeadSql(select, table) + TailSql(os, limit))] + [] == SelectTemplate(select, table, ws, os, limit);
    } else {
      var middle := JoinPieces(ClauseTemplates(ws), " AND ");
      SlotNamesAppend(head + middle, tail);
      SlotNamesAppend(head, middle);
      SlotsCons(head[0], []);
      SlotsCons(tail[0], []);
      assert head + [] == head && tail + [] == tail;
      JoinPiecesSlots(ClauseTemplates(ws), " AND ");
      ClauseTemplatesNames(ws);
    }
  }

  /** The text of a comparison without qualifier: the quoted column, the
      comparator and the clause's placeholder. */
  lemma UnqualifiedComparisonSql(i: nat, column: string, v: Value, comparator: string)
    requires comparator != ""
    ensures ClauseSql(i, Comparison(column, v, comparator, "")) == Escape(column) + " " + comparator + " :" + ParamName(i)
  {
    var rest := Escape(column) + " " + comparator + " :" + ParamName(i);
    var text := ComparisonText("", column, comparator, ParamName(i));
    assert text == [' '] + rest;
    assert text[1..] == rest;
    assert rest[0] == '"';
    assert TrimStart(text, Whitespaces) == rest;
    ParamNameEnd(i);
    assert rest[|rest| - 1] == ParamName(i)[|ParamName(i)| - 1];
    TrimEndKeeps(rest, Whitespaces);
  }

  /** As written, `where(_:not:)` appends the clause `where(_:eq:)` does:
      the query keeps the rows equal to the value instead of dropping them. */
  lemma NotAsWrittenIsEq(i: nat, column: string, v: Value)
    ensures NotClauseAsWritten(column, v) == EqClause(column, v)
    ensures ClauseSql(i, NotClauseAsWritten(column, v)) == Escape(column) + " = :" + ParamName(i)
  {
    UnqualifiedComparisonSql(i, column, v, "=");
    AppendAssoc(Escape(column), " ", "=");
  }

  /** Corrected, `where(_:not:)` renders the inequality, a text that differs
      from the one `where(_:eq:)` renders. */
  lemma NotIsInequality(i: nat, column: string, v: Value)
    ensures ClauseSql(i, NotClause(column, v)) == Escape(column) + " != :" + ParamName(i)
    ensures ClauseSql(i, NotClause(column, v)) != ClauseSql(i, EqClause(column, v))
  {
    UnqualifiedComparisonSql(i, column, v, "!=");
    UnqualifiedComparisonSql(i, column, v, "=");
    var e := Escape(column);
    assert ClauseSql(i, NotClause(column, v))[|e| + 1] == '!';
    assert ClauseSql(i, EqClause(column, v))[|e| + 1] == '=';
  }

  lemma UnionUpdate<K, V>(a: map<K, V>, b: map<K, V>, k: K, v: V)
    ensures (a + b)[k := v] == a + b[k := v]
  {
  }

  lemma UpdateIsUnion<K, V>(a: map<K, V>, k: K, v: V)
    ensures a[k := v] == a + map[k := v]
  {
  }

  /** A query for the record type `kind`. */
  class Query {
    const kind: string
    const select: seq<string>
    var wheres: seq<Clause>
    var orders: seq<Order>
    var limit: uint64

    /** Every clause can be rendered. */
    predicate Valid()
      reads this
    {
      forall c <- wheres :: Renderable(c)
    }

    /** `init(for:)`: no clause, no ordering, no limit, every column. */
    constructor (kind: string)
      ensures this.kind == kind && select == [] && wheres == [] && orders == [] && limit == 0
      ensures Valid()
    {
      this.kind := kind;
      select := [];
      wheres := [];
      orders := [];
      limit := 0;
    }

    /** `limit(_:)`. */
    method Limit(n: uint64) returns (q: Query)
      modifies this
      ensures q == this && limit == n && wheres == old(wheres) && orders == old(orders)
    {
      limit := n;
      q := this;
    }

    /** `where(column:value:comparitor:qualifier:)`: one clause more. */
    method Where(column: string, v: Value, comparator: string, qualifier: string) returns (q: Query)
      modifies this
      ensures q == this && wheres == old(wheres) + [Comparison(column, v, comparator, qualifier)]
      ensures orders == old(orders) && limit == old(limit)
      ensures Valid() <==> old(Valid())
    {
      wheres := wheres + [Comparison(column, v, comparator, qualifier)];
      q := this;
    }

    method WhereEq(column: string, v: Value) returns (q: Query)
      modifies this
      ensures q == this && wheres == old(wheres) + [EqClause(column, v)]
      ensures orders == old(orders) && limit == old(limit)
      ensures Valid() <==> old(Valid())
    {
      q := Where(column, v, "=", "");
    }

    method WhereGt(column: string, v: Value) returns (q: Query)
      modifies this
      ensures q == this && wheres == old(wheres) + [GtClause(column, v)]
      ensures orders == old(orders) && limit == old(limit)
      ensures Valid() <==> old(Valid())
    {
      q := Where(column, v, ">", "");
    }

    method WhereLt(column: string, v: Value) returns (q: Query)
      modifies this
      ensures q == this && wheres == old(wheres) + [LtClause(column, v)]
      ensures orders == old(orders) && limit == old(limit)
      ensures Valid() <==> old(Valid())
    {
      q := Where(column, v, "<", "");
    }

    method WhereGte(column: string, v: Value) returns (q: Query)
      modifies this
      ensures q == this && wheres == old(wheres) + [GteClause(column, v)]
      ensures orders == old(orders) && limit == old(limit)
      ensures Valid() <==> old(Valid())
    {
      q := Where(column, v, ">=", "");
    }

    method WhereLte(column: string, v: Value) returns (q: Query)
      modifies this
      ensures q == this && wheres == old(wheres) + [LteClause(column, v)]
      ensures orders == old(orders) && limit == old(limit)
      ensures Valid() <==> old(Valid())
    {
      q := Where(column, v, "<=", "");
    }

    /** `where(_:not:)` as the source writes it. */
    method WhereNotAsWritten(column: string, v: Value) returns (q: Query)
      modifies this
      ensures q == this && wheres == old(wheres) + [NotClauseAsWritten(column, v)]
      ensures orders == old(orders) && limit == old(limit)
      ensures Valid() <==> old(Valid())
    {
      q := Where(column, v, "=", "");
    }

    /** `where(_:not:)` with the inequality comparator. */
    method WhereNot(column: string, v: Value) returns (q: Query)
      modifies this
      ensures q == this && wheres == old(wheres) + [NotClause(column, v)]
      ensures orders == old(orders) && limit == old(limit)
      ensures Valid() <==> old(Valid())
    {
      q := Where(column, v, "!=", "");
    }

    /** `where(_:in:)`. */
    method WhereIn(column: string, vs: seq<Value>) returns (q: Query)
      modifies this
      ensures q == this && wheres == old(wheres) + [InClause(column, vs)]
      ensures orders == old(orders) && limit == old(limit)
      ensures Valid() <==> old(Valid())
    {
      wheres := wheres + [InClause(column, vs)];
      q := this;
    }

    /** `where(_:notIn:)`. */
    method WhereNotIn(column: string, vs: seq<Value>) returns (q: Query)
      modifies this
      ensures q == this && wheres == old(wheres) + [NotInClause(column, vs)]
      ensures orders == old(orders) && limit == old(limit)
      ensures Valid() <==> old(Valid())
    {
      wheres := wheres + [NotInClause(column, vs)];
      q := this;
    }

    /** `order(by:direction:)`. */
    method OrderBy(column: string, direction: Direction := Ascending) returns (q: Query)
      modifies this
      ensures q == this && orders == old(orders) + [Order(column, direction)]
      ensures wheres == old(wheres) && limit == old(limit)
    {
      orders := orders + [Order(column, direction)];
      q := this;
    }

    /** The inner loop of `generate()` over the values of IN clause
        `index`: their placeholders, and `values` with each one added. */
    static method NameInValues(index: nat, vs: seq<Value>, values0: map<string, Value>) returns (names: seq<string>, values: map<string, Value>)
      ensures names == InNames(index, |vs|)
      ensures values == values0 + InValues(index, vs)
    {
      names := [];
      values := values0;
      var vi := 0;
      while vi < |vs|
        invariant 0 <= vi <= |vs|
        invariant names == InNames(index, vi)
        invariant values == values0 + InValues(index, vs[..vi])
      {
        assert vs[..vi + 1][..vi] == vs[..vi];
        assert InValues(index, vs[..vi + 1]) == InValues(index, vs[..vi])[InParamName(index, vi) := vs[vi]];
        assert InNames(index, vi + 1) == InNames(index, vi) + [":" + InParamName(index, vi)];
        UnionUpdate(values0, InValues(index, vs[..vi]), InParamName(index, vi), vs[vi]);
        names := names + [":" + InParamName(index, vi)];
        values := values[InParamName(index, vi) := vs[vi]];
        vi := vi + 1;
      }
      assert vs[..vi] == vs;
    }

    /** One pass of the outer loop of `generate()`: the clause's text, and its
        values added to those collected so far. */
    static method ClausePart(index: nat, c: Clause, values0: map<string, Value>) returns (text: string, values: map<string, Value>)
      requires Renderable(c)
      ensures text == ClauseSql(index, c)
      ensures values == values0 + ClauseValues(index, c)
    {
      if c.comparator == "" {
        var names;
        names, values := NameInValues(index, c.values, values0);
        text := Trim(InText(c.qualifier, c.name, names), Whitespaces);
      } else {
        text := Trim(ComparisonText(c.qualifier, c.name, c.comparator, ParamName(index)), Whitespaces);
        UpdateIsUnion(values0, ParamName(index), c.values[0]);
        values := values0[ParamName(index) := c.values[0]];
      }
    }

    /** The outer loop of `generate()`: the text of every clause and the
        values of their parameters. */
    static method WhereParts(wheres: seq<Clause>) returns (clauses: seq<string>, values: map<string, Value>)
      requires forall c <- wheres :: Renderable(c)
      ensures clauses == ClauseSqls(wheres)
      ensures values == QueryValues(wheres)
    {
      clauses := [];
      values := map[];
      var index := 0;
      while index < |wheres|
        invariant 0 <= index <= |wheres|
        invariant clauses == ClauseSqls(wheres[..index])
        invariant values == QueryValues(wheres[..index])
      {
        var c := wheres[index];
        assert Renderable(c);
        assert wheres[..index + 1][..index] == wheres[..index];
        var text;
        text, values := ClausePart(index, c, values);
        clauses := clauses + [text];
        index := index + 1;
      }
      assert wheres[..index] == wheres;
    }

    /** `generate()`: the SELECT text and the values of its named
        parameters. */
    method Generate() returns (sql: string, values: map<string, Value>)
      requires Valid()
      ensures sql == SelectSql(select, kind, wheres, orders, limit)
      ensures values == QueryValues(wheres)
    {
      sql := "SELECT";
      if |select| == 0 {
        sql := sql + " *";
      } else {
        sql := sql + " " + Join(EscapeAll(select), ", ");
      }
      sql := sql + " FROM " + Escape(kind);
      assert sql == HeadSql(select, kind);
      values := map[];
      if |wheres| > 0 {
        sql := sql + " WHERE ";
        var clauses;
        clauses, values := WhereParts(wheres);
        AppendAssoc(HeadSql(select, kind), " WHERE ", Join(clauses, " AND "));
        sql := sql + Join(clauses, " AND ");
      }
      assert sql == HeadSql(select, kind) + WhereSql(wheres);
      if |orders| > 0 {
        AppendAssoc(sql, " ORDER BY ", Join(OrderSqls(orders), ", "));
        sql := sql + " ORDER BY ";
        sql := sql + Join(OrderSqls(orders), ", ");
      }
      assert sql == HeadSql(select, kind) + WhereSql(wheres) + OrderSql(orders);
      if limit > 0 {
        AppendAssoc(sql, " LIMIT ", NatToString(limit as nat));
        sql := sql + " LIMIT " + NatToString(limit as nat);
      }
      assert sql == HeadSql(select, kind) + WhereSql(wheres) + OrderSql(orders) + LimitSql(limit);
      sql := sql + ";";
    }
  }

  /** The first steps of `Database.query(_:)`: prepare the text, bind the
      values and open the result set, whose pending replies are those the
      engine gives for the bound statement. */
  method OpenResult(conn: Connection, sql: string, p: Params) returns (r: Outcome<Result>)
    ensures conn.handle == null ==> r == Fail(Unopened)
    ensures conn.handle != null ==>
      var q := QueryReplies(conn.handle.sqlite, conn.handle.applied, sql, p);
      && (q.Fail? ==> r == Fail(q.error))
      && (q.Ok? ==>
            && r.Ok? && fresh(r.value.statement) && r.value.statement.live && r.value.statement.db == conn.handle
            && r.value.Pending() == q.value.0 && r.value.columns == q.value.1)
  {
    var prepared := PrepareBind(conn, sql, p);
    if prepared.Fail? {
      return Fail(prepared.error);
    }
    r := conn.Query(prepared.value);
  }

  /** `Database.query(_:)`: run the generated text with its values bound by
      name and read one record of the query's type per row, in order; the
      first error ends it. */
  method Run(conn: Connection, query: Query) returns (r: Outcome<seq<Record>>)
    requires query.Valid()
    ensures conn.handle == null ==> r == Fail(Unopened)
    ensures conn.handle != null ==>
      var sql := SelectSql(query.select, query.kind, query.wheres, query.orders, query.limit);
      var q := QueryReplies(conn.handle.sqlite, conn.handle.applied, sql, ByName(QueryValues(query.wheres)));
      && (q.Fail? ==> r == Fail(q.error))
      && (q.Ok? ==>
            var rows := RowsOf(q.value.0, q.value.1, conn.handle.sqlite.diagnose);
            && (rows.Fail? ==> r == Fail(rows.error))
            && (rows.Ok? ==>
                  && r.Ok? && |r.value| == |rows.value|
                  && forall i :: 0 <= i < |rows.value| ==>
                       fresh(r.value[i]) && r.value[i].kind == query.kind && r.value[i].storage == rows.value[i]))
  {
    var sql, values := query.Generate();
    var result := OpenResult(conn, sql, ByName(values));
    if result.Fail? {
      return Fail(result.error);
    }
    r := RecordsOf(result.value, query.kind);
  }
}
