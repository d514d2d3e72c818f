/** What a printed INSERT puts into its table, executed with its arguments. */
module InsertMeaning {
  import opened Ast
  import opened Dialects
  import opened Emit
  import opened Executing
  import opened Keywords
  import opened Placeholders
  import opened Sections
  import opened Statements
  import opened Upserts
  import B = Building
  import SS = StatementSoundness
  import V = Validation

  // ----- records ---------------------------------------------------------------------------------

  /** A value of a record: bound, or the text of a literal. */
  datatype Cell = Given(value: Value) | Inlined(text: string)

  /** A record gives values to columns. */
  type Record = seq<(string, Cell)>

  function Zip(columns: seq<string>, cells: seq<Cell>): (r: Record)
    requires |columns| == |cells|
    ensures |r| == |columns| && forall i :: 0 <= i < |r| ==> r[i] == (columns[i], cells[i])
  {
    seq(|columns|, i requires 0 <= i < |columns| => (columns[i], cells[i]))
  }

  datatype Insertion =
    | Rows(table: seq<Token>, records: seq<Record>, tail: seq<Token>)
    | FromSelect(table: seq<Token>, columns: seq<string>, select: seq<Token>, tail: seq<Token>)

  // ----- reading an INSERT -------------------------------------------------------------------------

  datatype Read<+T> = Read(value: T, rest: seq<Token>)

  function ReadCell(t: Token): Option<Cell> {
    if t.Hole? && t.slot.Filled? then Some(Given(t.slot.value)) else if t.LitText? then Some(Inlined(t.text)) else None
  }

  /** The cells of a group up to its closing parenthesis. */
  function ReadCells(ts: seq<Token>): Option<Read<seq<Cell>>>
    decreases |ts|
  {
    if |ts| < 2 || ReadCell(ts[0]).None? then None
    else
      var cell := ReadCell(ts[0]).value;
      if ts[1] == Sym(")") then Some(Read([cell], ts[2..]))
      else if ts[1] == Sym(",") then
        match ReadCells(ts[2..]) case None => None case Some(Read(cells, rest)) => Some(Read([cell] + cells, rest))
      else None
  }

  function ReadGroup(ts: seq<Token>): (r: Option<Read<seq<Cell>>>) {
    if ts == [] || ts[0] != Sym("(") then None else ReadCells(ts[1..])
  }

  /** The names of a column list up to its closing parenthesis. */
  function ReadNames(ts: seq<Token>): Option<Read<seq<string>>>
    decreases |ts|
  {
    if ts == [] then None
    else if ts[0] == Sym(")") then Some(Read([], ts[1..]))
    else if ts[0].Ident? then
      match ReadNames(ts[1..]) case None => None case Some(Read(names, rest)) => Some(Read([ts[0].name] + names, rest))
    else None
  }

  /** A column list, or none. */
  function ReadColumns(ts: seq<Token>): Option<Read<seq<string>>> {
    if ts != [] && ts[0] == Sym("(") then ReadNames(ts[1..]) else Some(Read([], ts))
  }

  lemma {:induction false} CellsShrink(ts: seq<Token>)
    ensures ReadCells(ts).Some? ==> |ReadCells(ts).value.rest| < |ts|
    decreases |ts|
  {
    if |ts| >= 2 && ReadCell(ts[0]).Some? && ts[1] == Sym(",") { CellsShrink(ts[2..]); }
  }

  /** Value groups between commas, each a record for the same columns. */
  function ReadGroups(columns: seq<string>, ts: seq<Token>): Option<Read<seq<Record>>>
    decreases |ts|
  {
    match ReadGroup(ts)
    case None => None
    case Some(Read(cells, rest)) =>
      CellsShrink(ts[1..]);
      if |cells| != |columns| then None
      else if rest != [] && rest[0] == Sym(",") then
        match ReadGroups(columns, rest[1..])
        case None => None
        case Some(Read(records, end)) => Some(Read([Zip(columns, cells)] + records, end))
      else Some(Read([Zip(columns, cells)], rest))
  }

  /** A table, a column list and a value group. */
  function ReadInto(table: seq<Token>, ts: seq<Token>): Option<Read<Record>> {
    if !(table <= ts) then None
    else
      match ReadColumns(ts[|table|..])
      case None => None
      case Some(Read(columns, rest)) =>
        if rest == [] || rest[0] != Sym("VALUES") then None
        else
          match ReadGroup(rest[1..])
          case None => None
          case Some(Read(cells, end)) => if |cells| != |columns| then None else Some(Read(Zip(columns, cells), end))
  }

  lemma {:induction false} NamesShrink(ts: seq<Token>)
    ensures ReadNames(ts).Some? ==> |ReadNames(ts).value.rest| < |ts|
    decreases |ts|
  {
    if ts != [] && ts[0].Ident? { NamesShrink(ts[1..]); }
  }

  lemma {:induction false} IntoShrinks(table: seq<Token>, ts: seq<Token>)
    ensures ReadInto(table, ts).Some? ==> |ReadInto(table, ts).value.rest| < |ts|
  {
    if table <= ts {
      var after := ts[|table|..];
      if after != [] { NamesShrink(after[1..]); }
      if ReadColumns(after).Some? {
        var rest := ReadColumns(after).value.rest;
        if rest != [] && rest[1..] != [] { CellsShrink(rest[1..][1..]); }
      }
    }
  }

  /** The further targets of INSERT ALL, which must all be the same table. */
  function ReadIntos(table: seq<Token>, ts: seq<Token>): Option<Read<seq<Record>>>
    decreases |ts|
  {
    if ts == [] then None
    else if ts[0] == Sym("SELECT 1 FROM DUAL") then Some(Read([], ts[1..]))
    else if ts[0] != Sym("INTO") then None
    else
      IntoShrinks(table, ts[1..]);
      match ReadInto(table, ts[1..])
      case None => None
      case Some(Read(record, rest)) =>
        match ReadIntos(table, rest)
        case None => None
        case Some(Read(records, end)) => Some(Read([record] + records, end))
  }

  predicate StartsInsert(t: Token) {
    t == Sym("INSERT INTO") || t == Sym("INSERT IGNORE INTO") || t == Sym("INSERT ALL INTO")
  }

  /** A table is one token, or a raw expression that printed nothing. */
  function TableLength(ts: seq<Token>): (n: nat)
    ensures n <= |ts|
  {
    if ts != [] && (ts[0].Ident? || ts[0].Inner?) then 1 else 0
  }

  /** INSERT ALL puts its first row into the table like all others; only MySQL has an
      upsert tail behind a SELECT. */
  function ReadInsert(c: Compiler, sql: seq<Token>): Option<Insertion> {
    if sql == [] || !StartsInsert(sql[0]) then None
    else
      var n := TableLength(sql[1..]);
      var table := sql[1..][..n];
      if sql[0] == Sym("INSERT ALL INTO") then
        match ReadInto(table, sql[1..])
        case None => None
        case Some(Read(record, rest)) =>
          match ReadIntos(table, rest)
          case None => None
          case Some(Read(records, end)) => Some(Rows(table, [record] + records, end))
      else
        match ReadColumns(sql[1..][n..])
        case None => None
        case Some(Read(columns, rest)) =>
          if rest != [] && rest[0] == Sym("VALUES") then
            match ReadGroups(columns, rest[1..]) case None => None case Some(Read(records, end)) => Some(Rows(table, records, end))
          else if c.dialect.MySQL? then
            Some(FromSelect(table, columns, UpTo(rest, Upsert), Keywords.From(rest, Upsert)))
          else Some(FromSelect(table, columns, rest, []))
  }

  // ----- what the clauses ask for -----------------------------------------------------------------------

  /** The cell that a value of a clause asks for. */
  function Resolved(env: Env, v: Value): Cell {
    match v
    case Literal(text) => Inlined(text)
    case Variable(name) => Given(if name in env then env[name] else Null)
    case _ => Given(v)
  }

  function Cells(env: Env, values: seq<Value>): (cells: seq<Cell>)
    ensures |cells| == |values| && forall i :: 0 <= i < |cells| ==> cells[i] == Resolved(env, values[i])
  {
    seq(|values|, i requires 0 <= i < |values| => Resolved(env, values[i]))
  }

  /** A clause that inserts a row whose values are there. */
  predicate Row(env: Env, cl: Clause) {
    && cl.body.InsertRow? && |cl.body.columns| == |cl.body.values| > 0
    && forall v <- cl.body.values :: v.Variable? ==> v.name in env
  }

  predicate AllRows(env: Env, inserts: seq<Clause>) { forall i :: 0 <= i < |inserts| ==> Row(env, inserts[i]) }

  /** The record of a clause: its columns with its values. */
  function RecordOf(env: Env, cl: Clause): Record
    requires Row(env, cl)
  {
    Zip(cl.body.columns, Cells(env, cl.body.values))
  }

  function Asked(env: Env, inserts: seq<Clause>): (records: seq<Record>)
    requires AllRows(env, inserts)
    ensures |records| == |inserts|
  {
    if inserts == [] then [] else [RecordOf(env, inserts[0])] + Asked(env, inserts[1..])
  }

  /** The same with one column list for all rows; None where a row does not fit it. */
  function Shared(env: Env, columns: seq<string>, inserts: seq<Clause>): Option<seq<Record>>
    requires AllRows(env, inserts)
  {
    if inserts == [] then Some([])
    else
      assert Row(env, inserts[0]);
      if |inserts[0].body.values| != |columns| then None
      else
        match Shared(env, columns, inserts[1..])
        case None => None
        case Some(rest) => Some([Zip(columns, Cells(env, inserts[0].body.values))] + rest)
  }

  predicate SameLists(columns: seq<string>, inserts: seq<Clause>) {
    forall i :: 0 <= i < |inserts| ==> inserts[i].body.InsertRow? && inserts[i].body.columns == columns
  }

  /** Rows with one column list are the rows asked for exactly when it is theirs. */
  lemma {:induction false} SharedIsExact(env: Env, columns: seq<string>, inserts: seq<Clause>)
    requires AllRows(env, inserts)
    ensures Shared(env, columns, inserts) == Some(Asked(env, inserts)) <==> SameLists(columns, inserts)
  {
    if inserts != [] {
      assert Row(env, inserts[0]);
      hide Row;
      SharedIsExact(env, columns, inserts[1..]);
      FirstList(columns, inserts);
      hide SameLists, AllRows;
      if |inserts[0].body.values| == |columns| {
        SameColumns(columns, inserts[0].body.columns, Cells(env, inserts[0].body.values));
        hide Zip, Cells;
        var first, shared := Zip(columns, Cells(env, inserts[0].body.values)), Shared(env, columns, inserts[1..]);
        if shared.Some? { HeadAndTail(first, shared.value, RecordOf(env, inserts[0]), Asked(env, inserts[1..])); }
      }
    }
  }

  lemma {:induction false} HeadAndTail(a: Record, s: seq<Record>, b: Record, t: seq<Record>)
    ensures [a] + s == [b] + t <==> a == b && s == t
  {
    if [a] + s == [b] + t {
      assert ([a] + s)[0] == a && ([b] + t)[0] == b && ([a] + s)[1..] == s && ([b] + t)[1..] == t;
    }
  }

  lemma {:induction false} FirstList(columns: seq<string>, inserts: seq<Clause>)
    requires inserts != [] && inserts[0].body.InsertRow?
    ensures SameLists(columns, inserts) <==> inserts[0].body.columns == columns && SameLists(columns, inserts[1..])
  {
    if inserts[0].body.columns == columns && SameLists(columns, inserts[1..]) {
      forall i | 0 <= i < |inserts| ensures inserts[i].body.InsertRow? && inserts[i].body.columns == columns {
        if i > 0 { assert inserts[1..][i - 1] == inserts[i]; }
      }
    }
    if SameLists(columns, inserts) {
      forall i | 0 <= i < |inserts[1..]| ensures inserts[1..][i].body.InsertRow? && inserts[1..][i].body.columns == columns {
        assert inserts[1..][i] == inserts[i + 1];
      }
    }
  }

  lemma {:induction false} SameColumns(a: seq<string>, b: seq<string>, cells: seq<Cell>)
    requires |a| == |b| == |cells|
    ensures Zip(a, cells) == Zip(b, cells) <==> a == b
  {
    if Zip(a, cells) == Zip(b, cells) {
      forall i | 0 <= i < |a| ensures a[i] == b[i] { assert Zip(a, cells)[i] == Zip(b, cells)[i]; }
    }
  }

  // ----- the pieces read back ------------------------------------------------------------------------------

  lemma {:induction false} NamesRead(columns: seq<string>, rest: seq<Token>)
    ensures ReadNames(ColumnNames(columns) + ([Sym(")")] + rest)) == Some(Read(columns, rest))
  {
    var ts := ColumnNames(columns) + ([Sym(")")] + rest);
    if columns == [] {
      assert ts == [Sym(")")] + rest && ts[1..] == rest;
    } else {
      NamesRead(columns[1..], rest);
      var more := ColumnNames(columns[1..]) + ([Sym(")")] + rest);
      assert ts == [Ident(columns[0])] + more;
      hide ColumnNames;
      assert ts[1..] == more && [columns[0]] + columns[1..] == columns;
    }
  }

  lemma {:induction false} ColumnsRead(columns: seq<string>, rest: seq<Token>)
    requires rest != [] && rest[0] != Sym("(")
    ensures ReadColumns(InsertColumns(columns) + rest) == Some(Read(columns, rest))
  {
    if columns == [] {
      assert [] + rest == rest;
    } else {
      NamesRead(columns, rest);
      var names := ColumnNames(columns);
      hide ReadNames, ColumnNames;
      assert ([Sym("(")] + names + [Sym(")")]) + rest == [Sym("(")] + (names + ([Sym(")")] + rest));
      OpensColumns(names + ([Sym(")")] + rest));
    }
  }

  lemma {:induction false} OpensColumns(names: seq<Token>)
    ensures ReadColumns([Sym("(")] + names) == ReadNames(names)
  {
    hide ReadNames;
    assert ([Sym("(")] + names)[1..] == names;
  }

  lemma {:induction false} CellReads(env: Env, v: Value)
    requires v.Variable? ==> v.name in env
    ensures |Parameter(env, v).sql| == 1 && ReadCell(Parameter(env, v).sql[0]) == Some(Resolved(env, v))
  {
  }

  lemma {:induction false} CellsRead(env: Env, values: seq<Value>, rest: seq<Token>)
    requires values != [] && forall v <- values :: v.Variable? ==> v.name in env
    ensures ReadCells(Parameterize(env, values).sql + ([Sym(")")] + rest)) == Some(Read(Cells(env, values), rest))
  {
    ParametersAre(env, values);
    CellReads(env, values[0]);
    CellsAre(env, values);
    if |values| == 1 {
      hide ReadCell, ReadCells, Parameter, Parameterize, Cells, Resolved;
      LastCell(Parameter(env, values[0]).sql[0], rest);
    } else {
      CellsRead(env, values[1..], rest);
      hide ReadCell, ReadCells, Parameter, Parameterize, Cells, Resolved;
      var more := Parameterize(env, values[1..]).sql;
      NextCell(Parameter(env, values[0]).sql[0], more + ([Sym(")")] + rest));
      Regroup(Parameter(env, values[0]).sql[0], more, [Sym(")")] + rest);
    }
  }

  lemma {:induction false} Regroup(t: Token, more: seq<Token>, rest: seq<Token>)
    ensures ([t] + ([Sym(",")] + more)) + rest == [t] + ([Sym(",")] + (more + rest))
  {
  }

  lemma {:induction false} CellsAre(env: Env, values: seq<Value>)
    requires values != []
    ensures Cells(env, values) == [Resolved(env, values[0])] + Cells(env, values[1..])
    ensures |values| == 1 ==> Cells(env, values) == [Resolved(env, values[0])]
  {
    hide Resolved;
  }

  lemma {:induction false} ParametersAre(env: Env, values: seq<Value>)
    requires values != [] && forall v <- values :: v.Variable? ==> v.name in env
    ensures var t := Parameter(env, values[0]).sql;
      |t| == 1 && Parameterize(env, values).sql ==
        if |values| == 1 then [t[0]] else [t[0]] + ([Sym(",")] + Parameterize(env, values[1..]).sql)
  {
    CellReads(env, values[0]);
    hide Parameter;
    var parts := ParameterParts(env, values);
    assert parts[1..] == ParameterParts(env, values[1..]);
    assert parts[0].sql == [parts[0].sql[0]];
  }

  lemma {:induction false} LastCell(t: Token, rest: seq<Token>)
    requires ReadCell(t).Some?
    ensures ReadCells([t] + ([Sym(")")] + rest)) == Some(Read([ReadCell(t).value], rest))
  {
    hide ReadCell;
    var ts := [t] + ([Sym(")")] + rest);
    assert ts[2..] == rest && ts[1] == Sym(")");
  }

  lemma {:induction false} NextCell(t: Token, more: seq<Token>)
    requires ReadCell(t).Some?
    ensures ReadCells([t] + ([Sym(",")] + more)) ==
      match ReadCells(more) case None => None case Some(Read(cells, rest)) => Some(Read([ReadCell(t).value] + cells, rest))
  {
    hide ReadCell;
    var ts := [t] + ([Sym(",")] + more);
    assert ts[2..] == more && ts[1] == Sym(",");
    assert ","[0] != ")"[0];
  }

  lemma {:induction false} GroupReads(env: Env, values: seq<Value>, rest: seq<Token>)
    requires values != [] && forall v <- values :: v.Variable? ==> v.name in env
    ensures ReadGroup(RowValues(env, values).sql + rest) == Some(Read(Cells(env, values), rest))
    ensures RowValues(env, values).sql != [] && RowValues(env, values).sql[0] == Sym("(")
  {
    CellsRead(env, values, rest);
    hide Parameterize, ReadCells;
    var ts := RowValues(env, values).sql + rest;
    assert ts[1..] == Parameterize(env, values).sql + ([Sym(")")] + rest);
  }

  /** Value groups, up to what follows them. */
  lemma {:induction false} GroupsRead(c: Compiler, env: Env, table: seq<Token>, columns: seq<string>, inserts: seq<Clause>, rest: seq<Token>)
    requires !c.dialect.Oracle? && inserts != [] && AllRows(env, inserts) && (rest == [] || rest[0] != Sym(","))
    ensures inserts[0].body.InsertRow?
    ensures ReadGroups(columns, RowValues(env, inserts[0].body.values).sql + (RemainingRows(c, env, table, inserts[1..]).sql + rest)) ==
      match Shared(env, columns, inserts) case None => None case Some(records) => Some(Read(records, rest))
  {
    TailRows(env, inserts);
    SharedStep(env, columns, inserts);
    var values := inserts[0].body.values;
    var more := RemainingRows(c, env, table, inserts[1..]).sql + rest;
    GroupReads(env, values, more);
    var group := RowValues(env, values).sql;
    if inserts[1..] == [] {
      hide ReadGroup, RowValues, Cells, Zip, Row, ReadGroups;
      assert RemainingRows(c, env, table, inserts[1..]).sql == [] && more == rest;
      assert Shared(env, columns, inserts[1..]) == Some([]);
      LastGroup(columns, group, Cells(env, values), rest);
    } else {
      TailRows(env, inserts[1..]);
      hide Row, AllRows, Shared, ReadGroup, ReadGroups, RowValues, Cells, Zip, RemainingRows;
      NextGroup(c, env, table, inserts[1..]);
      GroupsRead(c, env, table, columns, inserts[1..], rest);
      var next := RowValues(env, inserts[1..][0].body.values).sql + (RemainingRows(c, env, table, inserts[1..][1..]).sql + rest);
      NextText(RowValues(env, inserts[1..][0].body.values).sql, RemainingRows(c, env, table, inserts[1..][1..]).sql, rest);
      MoreGroups(columns, group, Cells(env, values), next);
    }
  }

  lemma {:induction false} NextText(group: seq<Token>, more: seq<Token>, rest: seq<Token>)
    ensures ([Sym(",")] + (group + more)) + rest == [Sym(",")] + (group + (more + rest))
  {
  }

  lemma {:induction false} TailRows(env: Env, inserts: seq<Clause>)
    requires inserts != [] && AllRows(env, inserts)
    ensures AllRows(env, inserts[1..]) && Row(env, inserts[0])
  {
    hide Row;
  }

  lemma {:induction false} SharedStep(env: Env, columns: seq<string>, inserts: seq<Clause>)
    requires inserts != [] && AllRows(env, inserts)
    ensures inserts[0].body.InsertRow? && AllRows(env, inserts[1..])
    ensures Shared(env, columns, inserts) ==
      if |inserts[0].body.values| != |columns| then None
      else
        match Shared(env, columns, inserts[1..])
        case None => None
        case Some(rest) => Some([Zip(columns, Cells(env, inserts[0].body.values))] + rest)
  {
    TailRows(env, inserts);
  }

  lemma {:induction false} LastGroup(columns: seq<string>, group: seq<Token>, cells: seq<Cell>, rest: seq<Token>)
    requires ReadGroup(group + rest) == Some(Read(cells, rest)) && (rest == [] || rest[0] != Sym(","))
    ensures ReadGroups(columns, group + rest) == if |cells| != |columns| then None else Some(Read([Zip(columns, cells)] + [], rest))
  {
    hide ReadGroup, Zip;
    if |cells| == |columns| { assert [Zip(columns, cells)] + [] == [Zip(columns, cells)]; }
  }

  lemma {:induction false} MoreGroups(columns: seq<string>, group: seq<Token>, cells: seq<Cell>, next: seq<Token>)
    requires ReadGroup(group + ([Sym(",")] + next)) == Some(Read(cells, [Sym(",")] + next))
    ensures ReadGroups(columns, group + ([Sym(",")] + next)) ==
      if |cells| != |columns| then None
      else
        match ReadGroups(columns, next)
        case None => None
        case Some(Read(records, end)) => Some(Read([Zip(columns, cells)] + records, end))
  {
    hide ReadGroup, Zip;
    assert ([Sym(",")] + next)[1..] == next;
  }

  lemma {:induction false} NextGroup(c: Compiler, env: Env, table: seq<Token>, inserts: seq<Clause>)
    requires !c.dialect.Oracle? && inserts != [] && inserts[0].body.InsertRow?
    ensures RemainingRows(c, env, table, inserts).sql ==
      [Sym(",")] + (RowValues(env, inserts[0].body.values).sql + RemainingRows(c, env, table, inserts[1..]).sql)
  {
    hide RowValues;
  }

  lemma {:induction false} IntoReads(env: Env, table: seq<Token>, columns: seq<string>, values: seq<Value>, rest: seq<Token>)
    requires |columns| == |values| > 0 && forall v <- values :: v.Variable? ==> v.name in env
    ensures ReadInto(table, table + (InsertColumns(columns) + ([Sym("VALUES")] + (RowValues(env, values).sql + rest)))) ==
      Some(Read(Zip(columns, Cells(env, values)), rest))
  {
    var group := RowValues(env, values).sql + rest;
    var after := [Sym("VALUES")] + group;
    assert "VALUES"[0] != "("[0];
    ColumnsRead(columns, after);
    GroupReads(env, values, rest);
    hide ReadColumns, ReadGroup, RowValues, InsertColumns;
    var ts := table + (InsertColumns(columns) + after);
    assert ts[|table|..] == InsertColumns(columns) + after && after[1..] == group;
  }

  /** Oracle's further targets, up to the SELECT that closes them. */
  lemma {:induction false} IntosRead(c: Compiler, env: Env, table: seq<Token>, inserts: seq<Clause>, rest: seq<Token>)
    requires c.dialect.Oracle? && AllRows(env, inserts)
    ensures ReadIntos(table, RemainingRows(c, env, table, inserts).sql + rest) == Some(Read(Asked(env, inserts), rest))
  {
    var ts := RemainingRows(c, env, table, inserts).sql + rest;
    if inserts == [] {
      assert ts == [Sym("SELECT 1 FROM DUAL")] + rest && ts[1..] == rest;
      assert Asked(env, inserts) == [];
    } else {
      assert Row(env, inserts[0]);
      var InsertRow(columns, values, _) := inserts[0].body;
      var more := RemainingRows(c, env, table, inserts[1..]).sql + rest;
      TailRows(env, inserts);
      AskedStep(env, inserts);
      hide Row, RowValues, InsertColumns, ReadInto, Zip, Cells, ReadIntos, RemainingRows, Asked, AllRows, RecordOf;
      IntoReads(env, table, columns, values, more);
      IntosRead(c, env, table, inserts[1..], rest);
      NextInto(c, env, table, inserts);
      IntoText(table, InsertColumns(columns), RowValues(env, values).sql, RemainingRows(c, env, table, inserts[1..]).sql, rest);
      NextTarget(table, table + (InsertColumns(columns) + ([Sym("VALUES")] + (RowValues(env, values).sql + more))));
    }
  }

  lemma {:induction false} IntoText(table: seq<Token>, columns: seq<Token>, group: seq<Token>, more: seq<Token>, rest: seq<Token>)
    ensures ([Sym("INTO")] + (table + (columns + ([Sym("VALUES")] + (group + more))))) + rest
         == [Sym("INTO")] + (table + (columns + ([Sym("VALUES")] + (group + (more + rest)))))
  {
  }

  lemma {:induction false} AskedStep(env: Env, inserts: seq<Clause>)
    requires inserts != [] && AllRows(env, inserts)
    ensures Row(env, inserts[0]) && AllRows(env, inserts[1..])
    ensures Asked(env, inserts) == [Zip(inserts[0].body.columns, Cells(env, inserts[0].body.values))] + Asked(env, inserts[1..])
  {
    TailRows(env, inserts);
    hide Row;
  }

  lemma {:induction false} NextTarget(table: seq<Token>, into: seq<Token>)
    ensures ReadIntos(table, [Sym("INTO")] + into) ==
      match ReadInto(table, into)
      case None => None
      case Some(Read(record, rest)) =>
        match ReadIntos(table, rest)
        case None => None
        case Some(Read(records, end)) => Some(Read([record] + records, end))
  {
    hide ReadInto;
    var ts := [Sym("INTO")] + into;
    assert ts[1..] == into;
    assert |"INTO"| == 4 && |"SELECT 1 FROM DUAL"| == 18;
  }

  lemma {:induction false} NextInto(c: Compiler, env: Env, table: seq<Token>, inserts: seq<Clause>)
    requires c.dialect.Oracle? && inserts != [] && inserts[0].body.InsertRow?
    ensures RemainingRows(c, env, table, inserts).sql ==
      [Sym("INTO")] + (table + (InsertColumns(inserts[0].body.columns) + ([Sym("VALUES")]
        + (RowValues(env, inserts[0].body.values).sql + RemainingRows(c, env, table, inserts[1..]).sql))))
  {
    hide RowValues, InsertColumns;
  }

  // ----- the whole statement ----------------------------------------------------------------------------------

  /** The table that an accepted insert writes to. */
  predicate IsTable(table: seq<Token>) { table == [] || (|table| == 1 && (table[0].Ident? || table[0].Inner?)) }

  lemma {:induction false} TableReads(table: seq<Token>, rest: seq<Token>)
    requires IsTable(table) && rest != [] && !rest[0].Ident? && !rest[0].Inner?
    ensures TableLength(table + rest) == |table| && (table + rest)[..|table|] == table && (table + rest)[|table|..] == rest
  {
    if table == [] { assert table + rest == rest; }
  }

  /** The printed rows of any dialect but Oracle, and of Oracle for a single row. */
  lemma {:induction false} RowsStatement(c: Compiler, start: Token, table: seq<Token>, columns: seq<string>, groups: seq<Token>)
    requires StartsInsert(start) && start != Sym("INSERT ALL INTO") && IsTable(table)
    ensures ReadInsert(c, [start] + (table + (InsertColumns(columns) + ([Sym("VALUES")] + groups)))) ==
      match ReadGroups(columns, groups) case None => None case Some(Read(records, end)) => Some(Rows(table, records, end))
  {
    var rest := [Sym("VALUES")] + groups;
    var after := InsertColumns(columns) + rest;
    ColumnsOpen(columns, rest);
    TableReads(table, after);
    assert "VALUES"[0] != "("[0];
    ColumnsRead(columns, rest);
    assert rest[1..] == groups && ([start] + (table + after))[1..] == table + after;
    hide ReadColumns, ReadGroups, InsertColumns, TableLength, IsTable;
  }

  lemma {:induction false} ColumnsOpen(columns: seq<string>, rest: seq<Token>)
    requires rest != [] && !rest[0].Ident? && !rest[0].Inner?
    ensures var ts := InsertColumns(columns) + rest; ts != [] && !ts[0].Ident? && !ts[0].Inner?
  {
    if columns == [] { assert InsertColumns(columns) + rest == rest; }
  }

  /** Oracle's form for several rows. */
  lemma {:induction false} IntosStatement(c: Compiler, env: Env, table: seq<Token>, inserts: seq<Clause>, rest: seq<Token>)
    requires c.dialect.Oracle? && inserts != [] && AllRows(env, inserts) && IsTable(table)
    ensures inserts[0].body.InsertRow?
    ensures ReadInsert(c, [Sym("INSERT ALL INTO")] + (table + (InsertColumns(inserts[0].body.columns) + ([Sym("VALUES")]
        + (RowValues(env, inserts[0].body.values).sql + (RemainingRows(c, env, table, inserts[1..]).sql + rest)))))) ==
      Some(Rows(table, Asked(env, inserts), rest))
  {
    AskedStep(env, inserts);
    var InsertRow(columns, values, _) := inserts[0].body;
    var more := RemainingRows(c, env, table, inserts[1..]).sql + rest;
    var after := InsertColumns(columns) + ([Sym("VALUES")] + (RowValues(env, values).sql + more));
    IntosRead(c, env, table, inserts[1..], rest);
    IntoReads(env, table, columns, values, more);
    ColumnsOpen(columns, [Sym("VALUES")] + (RowValues(env, values).sql + more));
    TableReads(table, after);
    hide ReadInto, ReadIntos, InsertColumns, RowValues, RemainingRows, Asked, AllRows, Row, TableLength, Zip, Cells;
    AllStatement(c, table, after);
  }

  lemma {:induction false} AllStatement(c: Compiler, table: seq<Token>, after: seq<Token>)
    requires TableLength(table + after) == |table|
    ensures ReadInsert(c, [Sym("INSERT ALL INTO")] + (table + after)) ==
      match ReadInto(table, table + after)
      case None => None
      case Some(Read(record, rest)) =>
        match ReadIntos(table, rest)
        case None => None
        case Some(Read(records, end)) => Some(Rows(table, [record] + records, end))
  {
    hide ReadInto, ReadIntos, TableLength;
    var sql := [Sym("INSERT ALL INTO")] + (table + after);
    assert sql[1..] == table + after && (table + after)[..|table|] == table;
  }

  /** An insert from a SELECT. */
  lemma {:induction false} SelectStatement(c: Compiler, start: Token, table: seq<Token>, columns: seq<string>, select: seq<Token>, tail: seq<Token>)
    requires StartsInsert(start) && start != Sym("INSERT ALL INTO") && IsTable(table) && OpensSelect(select)
    requires if c.dialect.MySQL? then Free(select, Upsert) && Starts(tail, Upsert) else tail == []
    ensures ReadInsert(c, [start] + (table + (InsertColumns(columns) + (select + tail)))) == Some(FromSelect(table, columns, select, tail))
  {
    var rest := select + tail;
    var after := InsertColumns(columns) + rest;
    var sql := [start] + (table + after);
    assert sql[1..] == table + after && rest[0] == select[0];
    ColumnsOpen(columns, rest);
    TableReads(table, after);
    ColumnsRead(columns, rest);
    hide ReadColumns, ReadGroups, InsertColumns, TableLength, Free, Upsert, UpTo, Keywords.From;
    if c.dialect.MySQL? { SplitsAt(select, tail, Upsert); } else { assert select + [] == select; }
  }

  // ----- accepted inserts ----------------------------------------------------------------------------------------

  lemma {:induction false} RowsAccepted(inserts: seq<Clause>)
    requires V.RowsProblems(inserts) == []
    ensures forall i :: 0 <= i < |inserts| && inserts[i].body.InsertRow? ==> |inserts[i].body.columns| == |inserts[i].body.values| > 0
  {
    if inserts != [] {
      RowsAccepted(inserts[1..]);
      forall i | 0 <= i < |inserts| && inserts[i].body.InsertRow?
        ensures |inserts[i].body.columns| == |inserts[i].body.values| > 0
      {
        if i > 0 { assert inserts[1..][i - 1] == inserts[i]; }
      }
    }
  }

  /** The clauses and the table of an accepted insert. */
  lemma {:induction false} AcceptedInsert(c: Compiler, q: Query)
    requires Built(q.clauses) && V.Accepts(c, q) && q.verb == MethodInsert
    ensures var inserts := Components(q.clauses, Insert, c.Engine());
      && inserts != [] && IsTable(WriteTable(c, q.clauses).sql)
      && (AllRows(q.variables, inserts) || forall cl <- inserts :: cl.body.InsertQuery?)
  {
    var inserts := Components(q.clauses, Insert, c.Engine());
    V.ScopeAccepted(c, q.clauses, false, q.variables);
    ProblemsOf(c, q);
    TableAccepted(c, q);
    hide V.ScopeProblems, V.ScopeOk, V.ClauseOk, Built, Components, V.InsertProblems, V.RowsProblems, V.WriteProblems, V.Accepts, IsTable;
    SS.OneForm(c, q.clauses, q.variables);
    RowsAccepted(inserts);
    if forall cl <- inserts :: cl.body.InsertRow? && V.ValuesOk(cl.body.values, q.variables) {
      forall i | 0 <= i < |inserts| ensures Row(q.variables, inserts[i]) { assert inserts[i] in inserts; }
    }
  }

  lemma {:induction false} ProblemsOf(c: Compiler, q: Query)
    requires V.Accepts(c, q) && q.verb == MethodInsert
    ensures V.InsertProblems(c, q.clauses) == [] && V.TargetProblems(One(q.clauses, Ast.From, c.Engine())) == []
    ensures V.ScopeProblems(c, q.clauses, false, q.variables) == []
    ensures V.RowsProblems(Components(q.clauses, Insert, c.Engine())) == []
  {
    hide V.ScopeProblems, Components, One, V.RowsProblems, V.EmptyConflicts, V.TargetProblems, V.Mixed;
  }

  lemma {:induction false} TableAccepted(c: Compiler, q: Query)
    requires Built(q.clauses) && V.ScopeOk(c, q.clauses, false, q.variables)
    requires V.TargetProblems(One(q.clauses, Ast.From, c.Engine())) == []
    ensures IsTable(WriteTable(c, q.clauses).sql)
  {
    SS.TargetClean(c, q.clauses, q.variables);
    hide V.ScopeOk, One, ExpressionTokens, Built;
    var table := WriteTable(c, q.clauses).sql;
    if table != [] { assert table[0] in table; }
  }

  // ----- the main results -------------------------------------------------------------------------------------------

  /** What follows the rows or the SELECT. */
  function Tail(c: Compiler, cs: seq<Clause>): seq<Token> {
    var inserts := Components(cs, Insert, c.Engine());
    ConflictTail(c, cs) +
      if |inserts| == 1 && inserts[0].body.InsertRow? then LastIdTail(c, inserts[0].body.returnId) else []
  }

  /** The form that gives every row a column list of its own. */
  predicate OwnLists(c: Compiler, inserts: seq<Clause>) { c.dialect.Oracle? && |inserts| > 1 }

  /** The records of the printed rows. */
  function Printed(c: Compiler, env: Env, inserts: seq<Clause>): Option<seq<Record>>
    requires inserts != [] && AllRows(env, inserts)
  {
    assert Row(env, inserts[0]);
    if OwnLists(c, inserts) then Some(Asked(env, inserts)) else Shared(env, inserts[0].body.columns, inserts)
  }

  lemma {:induction false} TailStarts(c: Compiler, cs: seq<Clause>)
    ensures var tail := Tail(c, cs); tail == [] || tail[0] != Sym(",")
    ensures if c.dialect.MySQL? then Starts(ConflictTail(c, cs), Upsert) else ConflictTail(c, cs) == []
  {
    hide Components, One, Assignments;
    assert ";"[0] != ","[0] && "ON DUPLICATE KEY UPDATE"[0] != ","[0];
  }

  lemma {:induction false} StartIs(c: Compiler, cs: seq<Clause>, multi: bool)
    ensures StartsInsert(InsertStart(c, cs, multi))
    ensures InsertStart(c, cs, multi) == Sym("INSERT ALL INTO") <==> c.dialect.Oracle? && multi
  {
    hide One;
    assert |"INSERT ALL INTO"| == 15 && |"INSERT INTO"| == 11 && |"INSERT IGNORE INTO"| == 18;
  }

  // ----- what ends and what begins an insert --------------------------------------------------------

  /** The columns updated on a conflict, and the query for the last id. */
  datatype Ending = Ending(upsert: Option<seq<(string, string)>>, id: string)

  function ReadEnding(tail: seq<Token>): Ending {
    var before, after := UpTo(tail, {";"}), Keywords.From(tail, {";"});
    Ending(if before != [] && Opens(before[0], Upsert) then ReadUpsert(before[1..]) else None,
           if |after| == 2 && after[1].Sym? then after[1].text else "")
  }

  /** The columns that an accepted insert updates on a conflict. */
  function ConflictColumns(c: Compiler, cs: seq<Clause>): Option<seq<string>> {
    var cl := One(cs, Conflict, c.Engine());
    if c.dialect.MySQL? && cl.Some? && cl.value.body.OnConflict? then Some(cl.value.body.columns) else None
  }

  lemma {:induction false} AssignmentsHaveNoEnd(columns: seq<string>)
    ensures Free(Assignments(columns), {";"})
  {
    if columns != [] {
      AssignmentsHaveNoEnd(columns[1..]);
      assert |"= VALUES("| == 9 && |";"| == 1 && ")"[0] != ";"[0];
      var first := [Ident(columns[0]), Sym("= VALUES("), Ident(columns[0]), Sym(")")];
      hide Assignments;
      FreeCat(first, Assignments(columns[1..]), {";"});
      assert Assignments(columns) == first + Assignments(columns[1..]) by { AssignmentsStep(columns); }
    }
  }

  lemma {:induction false} AssignmentsStep(columns: seq<string>)
    requires columns != []
    ensures Assignments(columns) == [Ident(columns[0]), Sym("= VALUES("), Ident(columns[0]), Sym(")")] + Assignments(columns[1..])
  {
  }

  lemma {:induction false} EndingIs(upsert: seq<Token>, id: seq<Token>)
    requires Free(upsert, {";"}) && (id == [] || (|id| == 2 && id[0] == Sym(";") && id[1].Sym?))
    ensures ReadEnding(upsert + id) ==
      Ending(if upsert != [] && Opens(upsert[0], Upsert) then ReadUpsert(upsert[1..]) else None, if id == [] then "" else id[1].text)
  {
    hide ReadUpsert, UpTo, Keywords.From, Upsert;
    SplitsAt(upsert, id, {";"});
  }

  /** What follows the rows or the SELECT, read back: every conflict column takes its
      inserted value, and the last id is asked for behind a single row that wants it. */
  lemma {:induction false} EndingReads(c: Compiler, cs: seq<Clause>)
    ensures var inserts := Components(cs, Insert, c.Engine());
      ReadEnding(Tail(c, cs)) == Ending(
        (match ConflictColumns(c, cs) case None => None case Some(columns) => Some(Twins(columns))),
        if |inserts| == 1 && inserts[0].body.InsertRow? && inserts[0].body.returnId then c.LastId() else "")
    ensures ReadEnding(ConflictTail(c, cs)).upsert == match ConflictColumns(c, cs) case None => None case Some(columns) => Some(Twins(columns))
  {
    var upsert := ConflictTail(c, cs);
    var inserts := Components(cs, Insert, c.Engine());
    var id := if |inserts| == 1 && inserts[0].body.InsertRow? then LastIdTail(c, inserts[0].body.returnId) else [];
    UpsertIs(c, cs);
    hide ReadEnding, ConflictTail, ConflictColumns, Components, ReadUpsert, Twins, Upsert, Free;
    EndingIs(upsert, id);
    EndingIs(upsert, []);
    assert upsert + [] == upsert;
  }

  lemma {:induction false} UpsertIs(c: Compiler, cs: seq<Clause>)
    ensures var upsert := ConflictTail(c, cs);
      && Free(upsert, {";"})
      && (if upsert != [] && Opens(upsert[0], Upsert) then ReadUpsert(upsert[1..]) else None) ==
           match ConflictColumns(c, cs) case None => None case Some(columns) => Some(Twins(columns))
  {
    var upsert := ConflictTail(c, cs);
    hide One;
    if ConflictColumns(c, cs).Some? {
      var columns := ConflictColumns(c, cs).value;
      hide Assignments, ReadUpsert, Twins;
      UpsertReads(columns);
      AssignmentsHaveNoEnd(columns);
      assert upsert == [Sym("ON DUPLICATE KEY UPDATE")] + Assignments(columns) && upsert[1..] == Assignments(columns);
      assert |"ON DUPLICATE KEY UPDATE"| == 23 && |";"| == 1;
      assert Opens(upsert[0], Upsert);
      hide ConflictTail, ConflictColumns, Upsert;
      FreeCat([Sym("ON DUPLICATE KEY UPDATE")], Assignments(columns), {";"});
    } else {
      assert upsert == [];
    }
  }

  /** Every accepted insert: it ignores the rows that cannot be inserted exactly when it
      has a conflict clause. */
  lemma {:induction false} IgnoresConflicts(c: Compiler, q: Query)
    requires Built(q.clauses) && V.Accepts(c, q) && q.verb == MethodInsert && Aligned(Emitted(c, q))
    ensures var sql := Executed(c, q); sql != [] && (sql[0] == Sym("INSERT IGNORE INTO") <==> One(q.clauses, Conflict, c.Engine()).Some?)
  {
    AcceptedInsert(c, q);
    AcceptedConflict(c, q);
    ExecutedIs(c, q);
    StartMark(c, q.clauses);
    hide Emitted, Executed, V.Accepts, Built, Aligned, InsertStart, EmitInsert, Components, One, IsTable;
    var inserts := Components(q.clauses, Insert, c.Engine());
    assert inserts[0].body.InsertRow? || inserts[0].body.InsertQuery? by { assert inserts[0] in inserts; }
    InsertBegins(c, q.variables, q.clauses);
  }

  lemma {:induction false} InsertBegins(c: Compiler, env: Env, cs: seq<Clause>)
    requires var inserts := Components(cs, Insert, c.Engine());
      inserts != [] && (inserts[0].body.InsertRow? || inserts[0].body.InsertQuery?)
    ensures var sql := EmitInsert(c, env, cs).sql; sql != [] && exists multi :: sql[0] == InsertStart(c, cs, multi)
  {
    hide InsertStart, WriteTable, ConflictTail, InsertColumns, RowValues, RemainingRows, EmitSelect, Components, LastIdTail;
    var inserts := Components(cs, Insert, c.Engine());
    if inserts[0].body.InsertQuery? {
      assert EmitInsert(c, env, cs).sql[0] == InsertStart(c, cs, false);
    } else {
      assert EmitInsert(c, env, cs).sql[0] == InsertStart(c, cs, |inserts| > 1);
    }
  }

  lemma {:induction false} StartMark(c: Compiler, cs: seq<Clause>)
    ensures forall multi :: InsertStart(c, cs, multi) == Sym("INSERT IGNORE INTO") <==> c.dialect.MySQL? && One(cs, Conflict, c.Engine()).Some?
  {
    hide One;
    assert |"INSERT ALL INTO"| == 15 && |"INSERT INTO"| == 11 && |"INSERT IGNORE INTO"| == 18;
  }

  lemma {:induction false} AcceptedConflict(c: Compiler, q: Query)
    requires V.Accepts(c, q) && q.verb == MethodInsert
    ensures One(q.clauses, Conflict, c.Engine()).Some? ==> c.dialect.MySQL?
  {
    hide V.ScopeProblems, V.RowsProblems, V.EmptyConflicts, V.TargetProblems, V.Mixed;
  }

  lemma {:induction false} OneRowReads(env: Env, columns: seq<string>, inserts: seq<Clause>, rest: seq<Token>)
    requires |inserts| == 1 && AllRows(env, inserts) && (rest == [] || rest[0] != Sym(","))
    ensures inserts[0].body.InsertRow?
    ensures ReadGroups(columns, RowValues(env, inserts[0].body.values).sql + rest) ==
      match Shared(env, columns, inserts) case None => None case Some(records) => Some(Read(records, rest))
  {
    SharedStep(env, columns, inserts);
    TailRows(env, inserts);
    var values := inserts[0].body.values;
    GroupReads(env, values, rest);
    hide ReadGroup, RowValues, Cells, Zip, ReadGroups;
    LastGroup(columns, RowValues(env, values).sql, Cells(env, values), rest);
    assert inserts[1..] == [] && Shared(env, columns, inserts[1..]) == Some([]);
  }

  /** The text of an insert of rows. */
  lemma {:induction false} RowsText(c: Compiler, env: Env, cs: seq<Clause>)
    requires var inserts := Components(cs, Insert, c.Engine()); inserts != [] && inserts[0].body.InsertRow?
    ensures var inserts, table := Components(cs, Insert, c.Engine()), WriteTable(c, cs).sql;
      var InsertRow(columns, values, _) := inserts[0].body;
      EmitInsert(c, env, cs).sql == [InsertStart(c, cs, |inserts| > 1)] + (table + (InsertColumns(columns) + ([Sym("VALUES")]
        + (RowValues(env, values).sql + if |inserts| > 1 then RemainingRows(c, env, table, inserts[1..]).sql + Tail(c, cs) else Tail(c, cs)))))
  {
    SS.InsertRowsAre(c, env, cs);
    hide EmitInsert, WriteTable, InsertStart, InsertColumns, RowValues, RemainingRows, ConflictTail, LastIdTail, Components;
    var inserts, table := Components(cs, Insert, c.Engine()), WriteTable(c, cs).sql;
    var InsertRow(columns, values, returnId) := inserts[0].body;
    assert ConflictTail(c, cs) + [] == ConflictTail(c, cs);
    if |inserts| > 1 {
      ValuesText(InsertStart(c, cs, true), table, InsertColumns(columns), RowValues(env, values).sql,
                 RemainingRows(c, env, table, inserts[1..]).sql + ConflictTail(c, cs));
    } else {
      ValuesText(InsertStart(c, cs, false), table, InsertColumns(columns), RowValues(env, values).sql,
                 ConflictTail(c, cs) + LastIdTail(c, returnId));
    }
  }

  lemma {:induction false} ValuesText(start: Token, table: seq<Token>, columns: seq<Token>, values: seq<Token>, rest: seq<Token>)
    ensures [start] + (table + ((columns + [Sym("VALUES")]) + (values + rest)))
         == [start] + (table + (columns + ([Sym("VALUES")] + (values + rest))))
  {
    assert (columns + [Sym("VALUES")]) + (values + rest) == columns + ([Sym("VALUES")] + (values + rest));
  }

  /** The records read from an accepted insert of rows. */
  lemma {:induction false} RowsRead(c: Compiler, env: Env, cs: seq<Clause>)
    requires var inserts := Components(cs, Insert, c.Engine()); inserts != [] && AllRows(env, inserts)
    requires IsTable(WriteTable(c, cs).sql)
    ensures var inserts, table := Components(cs, Insert, c.Engine()), WriteTable(c, cs).sql;
      ReadInsert(c, EmitInsert(c, env, cs).sql) ==
        match Printed(c, env, inserts) case None => None case Some(records) => Some(Rows(table, records, Tail(c, cs)))
  {
    var inserts, table, tail := Components(cs, Insert, c.Engine()), WriteTable(c, cs).sql, Tail(c, cs);
    TailRows(env, inserts);
    var InsertRow(columns, values, _) := inserts[0].body;
    RowsText(c, env, cs);
    TailStarts(c, cs);
    StartIs(c, cs, |inserts| > 1);
    hide EmitInsert, WriteTable, InsertStart, InsertColumns, RowValues, RemainingRows, Tail, Components, ReadInsert, ReadGroups, Shared,
      Asked, AllRows, Row, IsTable;
    if OwnLists(c, inserts) {
      IntosStatement(c, env, table, inserts, tail);
    } else if |inserts| > 1 {
      GroupsRead(c, env, table, columns, inserts, tail);
      RowsStatement(c, InsertStart(c, cs, true), table, columns,
                    RowValues(env, values).sql + (RemainingRows(c, env, table, inserts[1..]).sql + tail));
    } else {
      OneRowReads(env, columns, inserts, tail);
      RowsStatement(c, InsertStart(c, cs, false), table, columns, RowValues(env, values).sql + tail);
    }
  }

  /** Every accepted insert of rows whose placeholders stand for its arguments, executed:
      it puts one record for each visible row into its table, in order, and the records
      are those of the clauses exactly where each row has its own column list (Oracle's
      form for several) or all rows have the same. */
  lemma {:induction false} RowsMean(c: Compiler, q: Query)
    requires Built(q.clauses) && V.Accepts(c, q) && q.verb == MethodInsert && Aligned(Emitted(c, q))
    requires Components(q.clauses, Insert, c.Engine()) != [] ==> Components(q.clauses, Insert, c.Engine())[0].body.InsertRow?
    ensures var inserts, table := Components(q.clauses, Insert, c.Engine()), WriteTable(c, q.clauses).sql;
      && inserts != [] && AllRows(q.variables, inserts) && inserts[0].body.InsertRow?
      && ReadInsert(c, Executed(c, q)) ==
           (match Printed(c, q.variables, inserts) case None => None case Some(records) => Some(Rows(table, records, Tail(c, q.clauses))))
      && (ReadInsert(c, Executed(c, q)) == Some(Rows(table, Asked(q.variables, inserts), Tail(c, q.clauses))) <==>
            OwnLists(c, inserts) || SameLists(inserts[0].body.columns, inserts))
  {
    var inserts := Components(q.clauses, Insert, c.Engine());
    AcceptedInsert(c, q);
    hide V.Accepts, Built, WriteTable, Components, Aligned, Emitted, Executed, ReadInsert, Shared, Asked, SameLists, Tail, IsTable, EmitInsert;
    assert AllRows(q.variables, inserts) by { assert inserts[0] in inserts; }
    TailRows(q.variables, inserts);
    hide AllRows;
    ExecutedIs(c, q);
    RowsRead(c, q.variables, q.clauses);
    SharedIsExact(q.variables, inserts[0].body.columns, inserts);
  }

  /** The text of an insert from a SELECT. */
  lemma {:induction false} SelectTextIs(c: Compiler, env: Env, cs: seq<Clause>)
    requires var inserts := Components(cs, Insert, c.Engine()); inserts != [] && inserts[0].body.InsertQuery?
    ensures var InsertQuery(columns, sub) := Components(cs, Insert, c.Engine())[0].body;
      EmitInsert(c, env, cs).sql ==
        [InsertStart(c, cs, false)] + (WriteTable(c, cs).sql + (InsertColumns(columns) + (EmitSelect(c, env, sub).sql + ConflictTail(c, cs))))
  {
    hide WriteTable, InsertStart, InsertColumns, EmitSelect, ConflictTail, Components;
  }

  /** Every accepted insert from a query, executed: it puts the rows that the SELECT of
      its first visible clause returns into its table, under that clause's columns. */
  lemma {:induction false} SelectMeans(c: Compiler, q: Query)
    requires Built(q.clauses) && V.Accepts(c, q) && q.verb == MethodInsert && Aligned(Emitted(c, q))
    requires var inserts := Components(q.clauses, Insert, c.Engine());
      && inserts != [] && inserts[0].body.InsertQuery?
      && (var sub := inserts[0].body.query;
          NamedJoins(Components(sub.clauses, Joins, c.Engine())) && NamedCombines(Components(sub.clauses, Combine, c.Engine())))
    ensures var InsertQuery(columns, sub) := Components(q.clauses, Insert, c.Engine())[0].body;
      ReadInsert(c, Executed(c, q)) ==
        Some(FromSelect(WriteTable(c, q.clauses).sql, columns, EmitSelect(c, q.variables, sub).sql, ConflictTail(c, q.clauses)))
  {
    var cs := q.clauses;
    var inserts := Components(cs, Insert, c.Engine());
    var InsertQuery(columns, sub) := inserts[0].body;
    AcceptedInsert(c, q);
    SubIsBuilt(cs, inserts[0]);
    SelectTextIs(c, q.variables, cs);
    TailStarts(c, cs);
    StartIs(c, cs, false);
    hide V.Accepts, Built, WriteTable, Components, Aligned, Emitted, Executed, ReadInsert, IsTable, EmitInsert, EmitSelect, NamedJoins,
      NamedCombines, InsertColumns, ConflictTail, InsertStart, Upsert, Free;
    ExecutedIs(c, q);
    SelectOpens(c, q.variables, sub);
    if c.dialect.MySQL? { SelectHasNoUpsert(c, q.variables, sub); }
    SelectStatement(c, InsertStart(c, cs, false), WriteTable(c, cs).sql, columns, EmitSelect(c, q.variables, sub).sql, ConflictTail(c, cs));
  }

  lemma {:induction false} SubIsBuilt(cs: seq<Clause>, cl: Clause)
    requires Built(cs) && cl in cs && cl.body.InsertQuery?
    ensures Built(cl.body.query.clauses)
  {
    var i :| 0 <= i < |cs| && cs[i] == cl;
    assert BuiltClause(cs[i]);
  }

  // ----- an example -------------------------------------------------------------------------------------------------

  const RowA := InsertRow(["a"], [Num(1)], false)
  const RowB := InsertRow(["b"], [Num(2)], false)

  /** Into t: a row for column a, and in a block for MySQL a row for column b.  Both are
      seen by MySQL, whose statement has one column list: the second value lands in
      column a. */
  lemma {:induction false} SecondRowLandsInFirstColumn(extra: set<string>)
    ensures var program := [B.Put(FromTable("t")), B.Write(MethodInsert, Insert, [RowA]),
                            B.Within("mysql", [B.Write(MethodInsert, Insert, [RowB])])];
      var q, c := B.Run(EmptyQuery, program), Compiler(MySQL, extra);
      var inserts := Components(q.clauses, Insert, c.Engine());
      && B.AllLegal(program) && inserts == [Clause("", RowA), Clause("mysql", RowB)] && AllRows(q.variables, inserts)
      && Printed(c, q.variables, inserts) == Some([[("a", Given(Num(1)))], [("a", Given(Num(2)))]])
      && Asked(q.variables, inserts) == [[("a", Given(Num(1)))], [("b", Given(Num(2)))]]
  {
    var table, a, b := Clause("", FromTable("t")), Clause("", RowA), Clause("mysql", RowB);
    var put, write, block := B.Put(FromTable("t")), B.Write(MethodInsert, Insert, [RowA]), B.Write(MethodInsert, Insert, [RowB]);
    var program := [put, write, B.Within("mysql", [block])];
    assert Tag(table) == Ast.From && Tag(a) == Tag(b) == Insert;
    hide B.Outside, B.Legal, B.SlotOf, B.AllLegal, B.Apply, B.Run, Components, Printed, Asked, AllRows, Tag;
    LegalSteps();
    StepsAre(table, a, b);
    RunThree(put, write, block, table, a, b);
    RowsSeen(extra, table, a, b);
    RowsPrinted(extra);
  }

  lemma {:induction false} StepsAre(table: Clause, a: Clause, b: Clause)
    requires table == Clause("", FromTable("t")) && a == Clause("", RowA) && b == Clause("mysql", RowB)
    ensures B.Apply(EmptyQuery, B.Put(FromTable("t"))) == EmptyQuery.(clauses := [table])
    ensures B.Apply(EmptyQuery.(clauses := [table]), B.Write(MethodInsert, Insert, [RowA])) ==
      EmptyQuery.(clauses := [table, a], verb := MethodInsert)
    ensures B.Apply(EmptyQuery.(clauses := [table, a], verb := MethodInsert, engineScope := "mysql"), B.Write(MethodInsert, Insert, [RowB])) ==
      EmptyQuery.(clauses := [table, a, b], verb := MethodInsert, engineScope := "mysql")
  {
    assert Tag(table) == Ast.From;
    hide B.Outside, B.Apply, Tag;
    B.FirstPut(FromTable("t"));
    WriteOne(EmptyQuery.(clauses := [table]), RowA);
    WriteOne(EmptyQuery.(clauses := [table, a], verb := MethodInsert, engineScope := "mysql"), RowB);
    KeptByWrites(table, a);
    assert [table] + [a] == [table, a] && [table, a] + [b] == [table, a, b];
  }

  lemma {:induction false} LegalSteps()
    ensures B.AllLegal([B.Put(FromTable("t")), B.Write(MethodInsert, Insert, [RowA]), B.Within("mysql", [B.Write(MethodInsert, Insert, [RowB])])])
  {
    var put, write, block := B.Put(FromTable("t")), B.Write(MethodInsert, Insert, [RowA]), B.Write(MethodInsert, Insert, [RowB]);
    assert B.Legal(put) && B.Legal(write) && B.Legal(block);
    assert [block][1..] == [];
    assert B.AllLegal([block]);
    var within := B.Within("mysql", [block]);
    assert B.Legal(within);
    hide B.Legal;
    assert [within][1..] == [] && [write, within][1..] == [within] && [put, write, within][1..] == [write, within];
    assert B.AllLegal([within]) && B.AllLegal([write, within]);
  }

  lemma {:induction false} WriteOne(q: Query, body: Body)
    ensures B.Apply(q, B.Write(MethodInsert, Insert, [body])) ==
      q.(verb := MethodInsert, clauses := B.Outside(q.clauses, Insert, q.engineScope) + [Clause(q.engineScope, body)])
  {
    hide B.Outside;
    assert [body][1..] == [];
    var d := B.DropInScope(q.(verb := MethodInsert), Insert);
    assert B.AddAll(d, [body]) == B.AddClause(d, body);
  }

  lemma {:induction false} KeptByWrites(table: Clause, a: Clause)
    requires Tag(table) == Ast.From && a.engine == ""
    ensures B.Outside([table], Insert, "") == [table] && B.Outside([table, a], Insert, "mysql") == [table, a]
  {
    hide Tag;
    assert [table][1..] == [] && [table, a][1..] == [a] && [a][1..] == [];
    assert B.Outside([a], Insert, "mysql") == [a];
  }

  lemma {:induction false} RunThree(put: B.Step, write: B.Step, block: B.Step, table: Clause, a: Clause, b: Clause)
    requires B.Apply(EmptyQuery, put) == EmptyQuery.(clauses := [table])
    requires B.Apply(EmptyQuery.(clauses := [table]), write) == EmptyQuery.(clauses := [table, a], verb := MethodInsert)
    requires B.Apply(EmptyQuery.(clauses := [table, a], verb := MethodInsert, engineScope := "mysql"), block) ==
      EmptyQuery.(clauses := [table, a, b], verb := MethodInsert, engineScope := "mysql")
    ensures B.Run(EmptyQuery, [put, write, B.Within("mysql", [block])]) == EmptyQuery.(clauses := [table, a, b], verb := MethodInsert)
  {
    var within := B.Within("mysql", [block]);
    var q := EmptyQuery.(clauses := [table, a], verb := MethodInsert);
    assert [put, write, within][1..] == [write, within] && [write, within][1..] == [within] && [within][1..] == [] && [block][1..] == [];
    B.RunNext(EmptyQuery, [put, write, within]);
    B.RunNext(EmptyQuery.(clauses := [table]), [write, within]);
    B.RunNext(q, [within]);
    B.RunNext(q.(engineScope := "mysql"), [block]);
    assert B.Apply(q, within) == B.Run(q.(engineScope := "mysql"), [block]).(engineScope := "");
  }

  lemma {:induction false} RowsSeen(extra: set<string>, table: Clause, a: Clause, b: Clause)
    requires Tag(table) == Ast.From && Tag(a) == Tag(b) == Insert && a.engine == "" && b.engine == "mysql"
    ensures Components([table, a, b], Insert, Compiler(MySQL, extra).Engine()) == [a, b]
  {
    hide Tag;
    assert [table, a, b][1..] == [a, b] && [a, b][1..] == [b] && [b][1..] == [];
    assert Components([b], Insert, "mysql") == [b] && Components([a, b], Insert, "mysql") == [a, b];
  }

  lemma {:induction false} RowsPrinted(extra: set<string>)
    ensures var inserts, c := [Clause("", RowA), Clause("mysql", RowB)], Compiler(MySQL, extra);
      && AllRows(map[], inserts)
      && Printed(c, map[], inserts) == Some([[("a", Given(Num(1)))], [("a", Given(Num(2)))]])
      && Asked(map[], inserts) == [[("a", Given(Num(1)))], [("b", Given(Num(2)))]]
  {
    var inserts := [Clause("", RowA), Clause("mysql", RowB)];
    assert Row(map[], inserts[0]) && Row(map[], inserts[1]);
    assert inserts[1..] == [inserts[1]] && [inserts[1]][1..] == [];
    assert Cells(map[], [Num(1)]) == [Given(Num(1))] && Cells(map[], [Num(2)]) == [Given(Num(2))];
    assert Zip(["a"], [Given(Num(1))]) == [("a", Given(Num(1)))] && Zip(["a"], [Given(Num(2))]) == [("a", Given(Num(2)))];
    assert Zip(["b"], [Given(Num(2))]) == [("b", Given(Num(2)))];
    SharedStep(map[], ["a"], inserts);
    SharedStep(map[], ["a"], [inserts[1]]);
    AskedStep(map[], inserts);
    AskedStep(map[], [inserts[1]]);
    assert Shared(map[], ["a"], []) == Some([]) && Asked(map[], []) == [];
    var one, two, other := [("a", Given(Num(1)))], [("a", Given(Num(2)))], [("b", Given(Num(2)))];
    assert [one] + ([two] + []) == [one, two] && [one] + ([other] + []) == [one, other];
    assert !OwnLists(Compiler(MySQL, extra), inserts);
  }
}
