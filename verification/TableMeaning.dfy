/** The rows that an ad-hoc table of a WITH list denotes, read back from its text. */
module TableMeaning {
  import opened Ast
  import opened Dialects

  /** A row gives values to the columns. */
  type Record = seq<(string, Value)>

  function Zip(columns: seq<string>, row: seq<Value>): (r: Record)
    requires |columns| == |row|
    ensures |r| == |columns|
  {
    if columns == [] then [] else [(columns[0], row[0])] + Zip(columns[1..], row[1..])
  }

  datatype Read<+T> = Read(value: T, rest: seq<Token>)

  predicate Bound(t: Token) { t.Hole? && t.slot.Filled? }

  // ----- rows as SELECTs of named values --------------------------------------------------------

  /** The named values of one SELECT. */
  function ReadNamed(ts: seq<Token>): Read<Record>
    decreases |ts|
  {
    if |ts| >= 3 && Bound(ts[0]) && ts[1] == Sym("AS") && ts[2].Ident? then
      var more := ReadNamed(ts[3..]);
      Read([(ts[2].name, ts[0].slot.value)] + more.value, more.rest)
    else Read([], ts)
  }

  lemma {:induction false} NamedShrinks(ts: seq<Token>)
    ensures |ReadNamed(ts).rest| <= |ts|
    decreases |ts|
  {
    if |ts| >= 3 && Bound(ts[0]) && ts[1] == Sym("AS") && ts[2].Ident? { NamedShrinks(ts[3..]); }
  }

  /** SELECTs combined by UNION ALL, which keeps every row; each from DUAL where the
      dialect needs a table. */
  function ReadSelects(dual: bool, ts: seq<Token>): Option<seq<Record>>
    decreases |ts|
  {
    if ts == [] || ts[0] != Sym("SELECT") then None
    else
      NamedShrinks(ts[1..]);
      var Read(record, after) := ReadNamed(ts[1..]);
      if dual && (after == [] || after[0] != Sym("FROM DUAL")) then None
      else
        var rest := if dual then after[1..] else after;
        if rest == [] then Some([record])
        else if rest[0] != Sym("UNION ALL") then None
        else match ReadSelects(dual, rest[1..]) case None => None case Some(records) => Some([record] + records)
  }

  // ----- rows as a VALUES table --------------------------------------------------------------------

  function ReadNames(ts: seq<Token>): Read<seq<string>>
    decreases |ts|
  {
    if ts != [] && ts[0].Ident? then
      var more := ReadNames(ts[1..]);
      Read([ts[0].name] + more.value, more.rest)
    else Read([], ts)
  }

  function ReadValues(ts: seq<Token>): Read<seq<Value>>
    decreases |ts|
  {
    if ts != [] && Bound(ts[0]) then
      var more := ReadValues(ts[1..]);
      Read([ts[0].slot.value] + more.value, more.rest)
    else Read([], ts)
  }

  lemma {:induction false} ValuesShrink(ts: seq<Token>)
    ensures |ReadValues(ts).rest| <= |ts|
    decreases |ts|
  {
    if ts != [] && Bound(ts[0]) { ValuesShrink(ts[1..]); }
  }

  /** Value groups between commas. */
  function ReadGroups(columns: seq<string>, ts: seq<Token>): Option<Read<seq<Record>>>
    decreases |ts|
  {
    if ts == [] || ts[0] != Sym("(") then None
    else
      ValuesShrink(ts[1..]);
      var Read(row, after) := ReadValues(ts[1..]);
      if after == [] || after[0] != Sym(")") || |row| != |columns| then None
      else if |after| >= 2 && after[1] == Sym(",") then
        match ReadGroups(columns, after[2..])
        case None => None
        case Some(Read(records, end)) => Some(Read([Zip(columns, row)] + records, end))
      else Some(Read([Zip(columns, row)], after[1..]))
  }

  /** SQL Server's table: the columns selected are those that the rows are named with. */
  function ReadTable(ts: seq<Token>): Option<seq<Record>> {
    if ts == [] || ts[0] != Sym("SELECT") then None
    else
      var Read(columns, values) := ReadNames(ts[1..]);
      if values == [] || values[0] != Sym("FROM (VALUES") then None
      else
        match ReadGroups(columns, values[1..])
        case None => None
        case Some(Read(records, end)) =>
          if end == [] || end[0] != Sym(") AS tbl (") then None
          else
            var Read(names, close) := ReadNames(end[1..]);
            if names == columns && close == [Sym(")")] then Some(records) else None
  }

  function ReadRows(c: Compiler, ts: seq<Token>): Option<seq<Record>> {
    if c.dialect.SqlServer? then ReadTable(ts) else ReadSelects(c.dialect.Oracle?, ts)
  }

  // ----- what is printed --------------------------------------------------------------------------

  /** Rows of plain values, one for each column. */
  predicate Regular(columns: seq<string>, rows: seq<seq<Value>>) {
    forall i :: 0 <= i < |rows| ==> |rows[i]| == |columns| && forall v <- rows[i] :: v.Plain()
  }

  function Records(columns: seq<string>, rows: seq<seq<Value>>): seq<Record>
    requires Regular(columns, rows)
  {
    if rows == [] then [] else [Zip(columns, rows[0])] + Records(columns, rows[1..])
  }

  lemma {:induction false} NamedRead(c: Compiler, columns: seq<string>, row: seq<Value>, rest: seq<Token>)
    requires !c.dialect.SqlServer? && |row| == |columns| && (forall v <- row :: v.Plain()) && (rest == [] || !Bound(rest[0]))
    ensures ReadNamed(RowCells(c, columns, row) + rest) == Read(Zip(columns, row), rest)
  {
    var ts := RowCells(c, columns, row) + rest;
    if columns == [] {
      assert ts == rest;
    } else {
      assert row[0] in row;
      NamedRead(c, columns[1..], row[1..], rest);
      var more := RowCells(c, columns[1..], row[1..]) + rest;
      CellsAre(c, columns, row);
      assert ts == [Hole(Filled(row[0])), Sym("AS"), Ident(columns[0])] + more;
      NamedStep(row[0], columns[0], more);
    }
  }

  lemma {:induction false} CellsAre(c: Compiler, columns: seq<string>, row: seq<Value>)
    requires !c.dialect.SqlServer? && |row| == |columns| > 0 && row[0].Plain()
    ensures RowCells(c, columns, row) == [Hole(Filled(row[0])), Sym("AS"), Ident(columns[0])] + RowCells(c, columns[1..], row[1..])
  {
    var more := RowCells(c, columns[1..], row[1..]);
    assert [] + [Hole(Filled(row[0]))] + [Sym("AS"), Ident(columns[0])] + more == [Hole(Filled(row[0])), Sym("AS"), Ident(columns[0])] + more;
  }

  lemma {:induction false} NamedStep(v: Value, column: string, more: seq<Token>)
    ensures ReadNamed([Hole(Filled(v)), Sym("AS"), Ident(column)] + more) ==
      Read([(column, v)] + ReadNamed(more).value, ReadNamed(more).rest)
  {
    assert ([Hole(Filled(v)), Sym("AS"), Ident(column)] + more)[3..] == more;
  }

  /** The text of one row outside of SQL Server. */
  function SelectText(c: Compiler, columns: seq<string>, row: seq<Value>): seq<Token> {
    [Sym("SELECT")] + RowCells(c, columns, row) + (if c.dialect.Oracle? then [Sym("FROM DUAL")] else [])
  }

  lemma {:induction false} RowsAre(c: Compiler, columns: seq<string>, rows: seq<seq<Value>>)
    requires rows != []
    ensures var parts := TableRows(c, columns, rows);
      && parts[1..] == TableRows(c, columns, rows[1..])
      && (!c.dialect.SqlServer? ==> parts[0].sql == SelectText(c, columns, rows[0]))
      && (c.dialect.SqlServer? ==> parts[0].sql == [Sym("(")] + RowCells(c, columns, rows[0]) + [Sym(")")])
  {
    hide RowCells, RowArgs;
  }

  lemma {:induction false} TailRegular(columns: seq<string>, rows: seq<seq<Value>>)
    requires rows != [] && Regular(columns, rows)
    ensures |rows[0]| == |columns| && (forall v <- rows[0] :: v.Plain()) && Regular(columns, rows[1..])
  {
    assert forall i :: 0 <= i < |rows[1..]| ==> rows[1..][i] == rows[i + 1];
  }

  lemma {:induction false} SelectsRead(c: Compiler, columns: seq<string>, rows: seq<seq<Value>>)
    requires !c.dialect.SqlServer? && rows != [] && Regular(columns, rows)
    ensures ReadSelects(c.dialect.Oracle?, Joined(TableRows(c, columns, rows), "UNION ALL").sql) == Some(Records(columns, rows))
  {
    var parts := TableRows(c, columns, rows);
    RowsAre(c, columns, rows);
    TailRegular(columns, rows);
    var more := if |rows| == 1 then [] else [Sym("UNION ALL")] + Joined(parts[1..], "UNION ALL").sql;
    LengthOf(c, columns, rows);
    JoinedIs(parts, "UNION ALL");
    hide RowCells, TableRows, Joined, ReadSelects, Zip, Regular;
    OneSelect(c, columns, rows[0], more);
    if |rows| > 1 {
      SelectsRead(c, columns, rows[1..]);
      assert more[1..] == Joined(parts[1..], "UNION ALL").sql;
    } else {
      assert Records(columns, rows[1..]) == [] && [Zip(columns, rows[0])] + [] == [Zip(columns, rows[0])];
    }
  }

  lemma {:induction false} LengthOf(c: Compiler, columns: seq<string>, rows: seq<seq<Value>>)
    ensures |TableRows(c, columns, rows)| == |rows|
  {
    hide RowCells, RowArgs;
    if rows != [] { LengthOf(c, columns, rows[1..]); }
  }

  lemma {:induction false} JoinedIs(parts: seq<Out>, sep: string)
    requires parts != []
    ensures Joined(parts, sep).sql == parts[0].sql + if |parts| == 1 then [] else [Sym(sep)] + Joined(parts[1..], sep).sql
  {
    if |parts| == 1 { assert parts[0].sql + [] == parts[0].sql; }
  }

  /** One SELECT, and what follows it. */
  lemma {:induction false} OneSelect(c: Compiler, columns: seq<string>, row: seq<Value>, more: seq<Token>)
    requires !c.dialect.SqlServer? && |row| == |columns| && (forall v <- row :: v.Plain())
    requires more == [] || more[0] == Sym("UNION ALL")
    ensures ReadSelects(c.dialect.Oracle?, SelectText(c, columns, row) + more) ==
      if more == [] then Some([Zip(columns, row)])
      else
        match ReadSelects(c.dialect.Oracle?, more[1..])
        case None => None
        case Some(records) => Some([Zip(columns, row)] + records)
  {
    var cells := RowCells(c, columns, row);
    if c.dialect.Oracle? {
      NamedRead(c, columns, row, [Sym("FROM DUAL")] + more);
      hide RowCells, ReadNamed, Zip, ReadSelects;
      SelectStep(true, cells, [Sym("FROM DUAL")] + more, Zip(columns, row));
      DualText(cells, more);
    } else {
      NamedRead(c, columns, row, more);
      hide RowCells, ReadNamed, Zip, ReadSelects;
      SelectStep(false, cells, more, Zip(columns, row));
      assert ([Sym("SELECT")] + cells + []) + more == [Sym("SELECT")] + (cells + more);
    }
  }

  lemma {:induction false} DualText(cells: seq<Token>, more: seq<Token>)
    ensures ([Sym("SELECT")] + cells + [Sym("FROM DUAL")]) + more == [Sym("SELECT")] + (cells + ([Sym("FROM DUAL")] + more))
    ensures ([Sym("FROM DUAL")] + more)[1..] == more
  {
  }

  lemma {:induction false} SelectStep(dual: bool, cells: seq<Token>, after: seq<Token>, record: Record)
    requires ReadNamed(cells + after) == Read(record, after)
    requires dual ==> after != [] && after[0] == Sym("FROM DUAL")
    requires var rest := if dual then after[1..] else after; rest == [] || rest[0] == Sym("UNION ALL")
    ensures ReadSelects(dual, [Sym("SELECT")] + (cells + after)) ==
      var rest := if dual then after[1..] else after;
      if rest == [] then Some([record])
      else match ReadSelects(dual, rest[1..]) case None => None case Some(records) => Some([record] + records)
  {
    hide ReadNamed;
    assert ([Sym("SELECT")] + (cells + after))[1..] == cells + after;
  }

  lemma {:induction false} NamesRead(columns: seq<string>, rest: seq<Token>)
    requires rest == [] || !rest[0].Ident?
    ensures ReadNames(ColumnNames(columns) + rest) == Read(columns, rest)
  {
    if columns == [] {
      assert ColumnNames(columns) + rest == rest;
    } else {
      NamesRead(columns[1..], rest);
      var more := ColumnNames(columns[1..]) + rest;
      assert ColumnNames(columns) + rest == [Ident(columns[0])] + more && ([Ident(columns[0])] + more)[1..] == more;
      assert [columns[0]] + columns[1..] == columns;
    }
  }

  lemma {:induction false} ValuesRead(c: Compiler, columns: seq<string>, row: seq<Value>, rest: seq<Token>)
    requires c.dialect.SqlServer? && |row| == |columns| && (forall v <- row :: v.Plain()) && (rest == [] || !Bound(rest[0]))
    ensures ReadValues(RowCells(c, columns, row) + rest) == Read(row, rest)
  {
    var ts := RowCells(c, columns, row) + rest;
    if columns == [] {
      assert ts == rest;
    } else {
      assert row[0] in row;
      ValuesRead(c, columns[1..], row[1..], rest);
      var more := RowCells(c, columns[1..], row[1..]) + rest;
      PlainCells(c, columns, row);
      hide RowCells;
      assert ts == [Hole(Filled(row[0]))] + more;
      ValueStep(row[0], more);
      assert [row[0]] + row[1..] == row;
    }
  }

  lemma {:induction false} ValueStep(v: Value, more: seq<Token>)
    ensures ReadValues([Hole(Filled(v))] + more) == Read([v] + ReadValues(more).value, ReadValues(more).rest)
  {
    assert ([Hole(Filled(v))] + more)[1..] == more;
  }

  lemma {:induction false} PlainCells(c: Compiler, columns: seq<string>, row: seq<Value>)
    requires c.dialect.SqlServer? && |row| == |columns| > 0 && row[0].Plain()
    ensures RowCells(c, columns, row) == [Hole(Filled(row[0]))] + RowCells(c, columns[1..], row[1..])
  {
    var more := RowCells(c, columns[1..], row[1..]);
    assert [] + [Hole(Filled(row[0]))] + [] + more == [Hole(Filled(row[0]))] + more;
  }

  /** One value group, and what follows it. */
  lemma {:induction false} OneGroup(c: Compiler, columns: seq<string>, row: seq<Value>, more: seq<Token>)
    requires c.dialect.SqlServer? && |row| == |columns| && forall v <- row :: v.Plain()
    ensures ReadGroups(columns, ([Sym("(")] + RowCells(c, columns, row) + [Sym(")")]) + more) ==
      if more != [] && more[0] == Sym(",") then
        match ReadGroups(columns, more[1..])
        case None => None
        case Some(Read(records, end)) => Some(Read([Zip(columns, row)] + records, end))
      else Some(Read([Zip(columns, row)], more))
  {
    var cells, after := RowCells(c, columns, row), [Sym(")")] + more;
    ValuesRead(c, columns, row, after);
    hide RowCells, ReadValues, Zip;
    var ts := ([Sym("(")] + cells + [Sym(")")]) + more;
    assert ts == [Sym("(")] + (cells + after) && ts[1..] == cells + after;
    assert after[1..] == more;
    if more != [] { assert after[1] == more[0] && after[2..] == more[1..]; }
  }

  lemma {:induction false} GroupsRead(c: Compiler, columns: seq<string>, rows: seq<seq<Value>>, rest: seq<Token>)
    requires c.dialect.SqlServer? && rows != [] && Regular(columns, rows) && (rest == [] || rest[0] != Sym(","))
    ensures ReadGroups(columns, Joined(TableRows(c, columns, rows), ",").sql + rest) == Some(Read(Records(columns, rows), rest))
  {
    var parts := TableRows(c, columns, rows);
    RowsAre(c, columns, rows);
    TailRegular(columns, rows);
    LengthOf(c, columns, rows);
    JoinedIs(parts, ",");
    hide RowCells, TableRows, Joined, ReadGroups, Zip, Regular;
    if |rows| > 1 {
      var more := Joined(parts[1..], ",").sql;
      GroupsRead(c, columns, rows[1..], rest);
      OneGroup(c, columns, rows[0], [Sym(",")] + (more + rest));
      CommaText(parts[0].sql, more, rest);
    } else {
      OneGroup(c, columns, rows[0], rest);
      assert parts[0].sql + [] == parts[0].sql;
      assert Records(columns, rows[1..]) == [] && [Zip(columns, rows[0])] + [] == [Zip(columns, rows[0])];
    }
  }

  lemma {:induction false} CommaText(first: seq<Token>, more: seq<Token>, rest: seq<Token>)
    ensures (first + ([Sym(",")] + more)) + rest == first + ([Sym(",")] + (more + rest))
    ensures ([Sym(",")] + (more + rest))[1..] == more + rest
  {
  }

  lemma {:induction false} TableReads(c: Compiler, columns: seq<string>, rows: seq<seq<Value>>)
    requires c.dialect.SqlServer? && rows != [] && Regular(columns, rows)
    ensures ReadTable(TableOut(c, columns, rows).sql) == Some(Records(columns, rows))
  {
    var names, groups := ColumnNames(columns), Joined(TableRows(c, columns, rows), ",").sql;
    var close := [Sym(") AS tbl (")] + (names + [Sym(")")]);
    var values := [Sym("FROM (VALUES")] + (groups + close);
    GroupsRead(c, columns, rows, close);
    NamesRead(columns, values);
    NamesRead(columns, [Sym(")")]);
    hide ColumnNames, TableRows, Joined, ReadGroups, ReadNames, Regular, Records;
    TableText(names, groups);
    TableStep(columns, Records(columns, rows), names, groups);
  }

  lemma {:induction false} TableText(names: seq<Token>, groups: seq<Token>)
    ensures ([Sym("SELECT")] + names + [Sym("FROM (VALUES")]) + (groups + ([Sym(") AS tbl (")] + names + [Sym(")")]))
         == [Sym("SELECT")] + (names + ([Sym("FROM (VALUES")] + (groups + ([Sym(") AS tbl (")] + (names + [Sym(")")])))))
  {
  }

  lemma {:induction false} TableStep(columns: seq<string>, records: seq<Record>, names: seq<Token>, groups: seq<Token>)
    requires var close := [Sym(") AS tbl (")] + (names + [Sym(")")]);
      && ReadNames(names + ([Sym("FROM (VALUES")] + (groups + close))) == Read(columns, [Sym("FROM (VALUES")] + (groups + close))
      && ReadGroups(columns, groups + close) == Some(Read(records, close))
      && ReadNames(names + [Sym(")")]) == Read(columns, [Sym(")")])
    ensures ReadTable([Sym("SELECT")] + (names + ([Sym("FROM (VALUES")] + (groups + ([Sym(") AS tbl (")] + (names + [Sym(")")])))))) == Some(records)
  {
    hide ReadGroups, ReadNames;
    var close := [Sym(") AS tbl (")] + (names + [Sym(")")]);
    var values := [Sym("FROM (VALUES")] + (groups + close);
    assert ([Sym("SELECT")] + (names + values))[1..] == names + values;
    assert values[1..] == groups + close && close[1..] == names + [Sym(")")];
  }

  /** The rows of an ad-hoc table of plain values, in every dialect: each is there, in
      order, with its values under the columns. */
  lemma {:induction false} RowsRead(c: Compiler, columns: seq<string>, rows: seq<seq<Value>>)
    requires rows != [] && Regular(columns, rows)
    ensures ReadRows(c, TableOut(c, columns, rows).sql) == Some(Records(columns, rows))
  {
    hide ReadTable, ReadSelects, Regular, Records, TableRows, Joined;
    if c.dialect.SqlServer? { TableReads(c, columns, rows); } else { SelectsRead(c, columns, rows); }
  }
}
