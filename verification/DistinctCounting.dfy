/** What the distinct form of a count counts: the printed statement, read back on a
    database, against the rows of the query that was written. */
module DistinctCounting {
  import opened Ast
  import opened Dialects
  import opened Emit
  import opened Statements
  import opened Aggregates
  import opened Keywords
  import W = Windows
  import S = Strings

  // ----- tuples ---------------------------------------------------------------------------

  /** What one projected name yields: a value or null, or for a star a whole row. */
  datatype Field = Single(value: Option<int>) | Whole(cells: map<string, int>)

  predicate Star(name: string) { name == "*" || (|name| >= 2 && name[|name| - 2..] == ".*") }

  function Projected(row: Row, column: string): Field {
    var name := S.SplitAlias(column).0;
    if name == "*" then Whole(row.cells)
    else if Star(name) then Whole(map key | key in row.cells && name[..|name| - 1] <= key :: row.cells[key])
    else Single(row.Cell(name))
  }

  /** What SELECT DISTINCT compares of a row; two nulls are not distinct. */
  function Tuple(row: Row, columns: seq<string>): (t: seq<Field>)
    ensures |t| == |columns|
    ensures forall i :: 0 <= i < |t| ==> t[i] == Projected(row, columns[i])
  {
    seq(|columns|, i requires 0 <= i < |columns| => Projected(row, columns[i]))
  }

  /** The rows of SELECT DISTINCT: each tuple once. */
  function Distinct(rows: seq<Row>, columns: seq<string>): seq<seq<Field>> {
    if rows == [] then []
    else
      var rest := Distinct(rows[1..], columns);
      var tuple := Tuple(rows[0], columns);
      if tuple in rest then rest else [tuple] + rest
  }

  ghost function TupleSet(rows: seq<Row>, columns: seq<string>): set<seq<Field>> {
    set row <- rows :: Tuple(row, columns)
  }

  lemma {:induction false} TupleSetCons(rows: seq<Row>, columns: seq<string>)
    requires rows != []
    ensures TupleSet(rows, columns) == TupleSet(rows[1..], columns) + {Tuple(rows[0], columns)}
  {
    hide Tuple;
    assert rows == [rows[0]] + rows[1..];
  }

  lemma {:induction false} NoTuples(columns: seq<string>)
    ensures TupleSet([], columns) == {}
  {
    hide Tuple;
  }

  lemma {:induction false} DistinctIsSet(rows: seq<Row>, columns: seq<string>)
    ensures |Distinct(rows, columns)| == |TupleSet(rows, columns)|
    ensures forall t :: t in Distinct(rows, columns) <==> t in TupleSet(rows, columns)
  {
    hide Tuple, TupleSet;
    if rows != [] {
      DistinctIsSet(rows[1..], columns);
      TupleSetCons(rows, columns);
    } else {
      NoTuples(columns);
    }
  }

  // ----- reading the statement ----------------------------------------------------------------

  /** A database: the rows of a FROM section with its joins. */
  type Sources = seq<Token> -> seq<Row>

  /** The SELECT inside the first parentheses, without its comment. */
  function ReadInner(sql: seq<Token>): Option<seq<Token>> {
    if sql == [] then None
    else if sql[0].Inner? then
      var inner := sql[0].tokens;
      Some(if inner != [] && inner[0].Remark? then inner[1..] else inner)
    else ReadInner(sql[1..])
  }

  datatype Projection = Projection(names: seq<string>, rest: seq<Token>)

  /** A projection list of names, up to FROM. */
  function ReadNames(ts: seq<Token>): Option<Projection> {
    if |ts| < 2 || !(ts[0].Ident? || ts[0] == Sym("*")) then None
    else
      var name := if ts[0].Ident? then ts[0].name else "*";
      if ts[1] == Sym("FROM") then Some(Projection([name], ts[1..]))
      else if ts[1] == Sym(",") then
        match ReadNames(ts[2..])
        case None => None
        case Some(p) => Some(Projection([name] + p.names, p.rest))
      else None
  }

  /** The tuples that a counting statement counts: the SELECT DISTINCT inside it, its
      source as the database gives it, its WHERE row by row. */
  function ReadDistinct(D: Sources, sql: seq<Token>): Option<seq<seq<Field>>> {
    match ReadInner(sql)
    case None => None
    case Some(inner) =>
      if |inner| < 2 || inner[..2] != [Sym("SELECT"), Sym("DISTINCT")] then None
      else
        match ReadNames(inner[2..])
        case None => None
        case Some(p) =>
          Some(Distinct(Passing(D(UpTo(p.rest, {"WHERE"})), Keywords.From(p.rest, {"WHERE"})), p.names))
  }

  /** The columns that are compared. */
  function Compared(c: Compiler, q: Query, columns: seq<string>): seq<string> {
    if columns == [] || !AppendsVisibly(c, q) then ["*"] else columns
  }

  lemma {:induction false} NamesRead(columns: seq<string>, rest: seq<Token>)
    requires columns != [] && rest != [] && rest[0] == Sym("FROM")
    ensures ReadNames(Names(columns) + rest) == Some(Projection(columns, rest))
  {
    hide ReadNames;
    if |columns| == 1 {
      assert columns == [columns[0]];
      LastName(columns[0], rest);
    } else {
      var more := Names(columns[1..]) + rest;
      NamesRead(columns[1..], rest);
      NextName(columns[0], more);
      assert Names(columns) + rest == [Ident(columns[0]), Sym(",")] + more;
      assert [columns[0]] + columns[1..] == columns;
    }
  }

  lemma {:induction false} LastName(name: string, rest: seq<Token>)
    requires rest != [] && rest[0] == Sym("FROM")
    ensures ReadNames([Ident(name)] + rest) == Some(Projection([name], rest))
  {
    var ts := [Ident(name)] + rest;
    assert ts[1..] == rest && ts[1] == rest[0];
  }

  lemma {:induction false} NextName(name: string, more: seq<Token>)
    ensures ReadNames([Ident(name), Sym(",")] + more) == match ReadNames(more)
      case None => None
      case Some(p) => Some(Projection([name] + p.names, p.rest))
  {
    var ts := [Ident(name), Sym(",")] + more;
    assert ts[2..] == more && ts[0] == Ident(name) && ts[1] == Sym(",");
    assert |","| != |"FROM"|;
  }

  lemma {:induction false} HeadRead(c: Compiler, q: Query, columns: seq<string>, rest: seq<Token>)
    requires rest != [] && rest[0] == Sym("FROM")
    ensures ReadNames(DistinctNames(c, q, columns) + rest) == Some(Projection(Compared(c, q, columns), rest))
  {
    hide AppendsVisibly;
    if columns == [] || !AppendsVisibly(c, q) {
      var ts := [Sym("*")] + rest;
      assert ts[1..] == rest && ts[1] == rest[0];
    } else {
      NamesRead(columns, rest);
    }
  }

  lemma {:induction false} SourceSplits(c: Compiler, env: Env, cs: seq<Clause>)
    requires NamedJoins(Components(cs, Joins, c.Engine()))
    ensures var source, where' := SourceText(c, env, cs), WhereText(c, env, cs);
      && source != [] && source[0] == Sym("FROM")
      && UpTo(source + where', {"WHERE"}) == source && Keywords.From(source + where', {"WHERE"}) == where'
  {
    var source, where' := SourceText(c, env, cs), WhereText(c, env, cs);
    SourceHasNoWhere(c, env, cs);
    WhereOpens(c, env, cs);
    hide SourceText, WhereText;
    SplitsAt(source, where', {"WHERE"});
  }

  lemma {:induction false} WhereOpens(c: Compiler, env: Env, cs: seq<Clause>)
    ensures var where' := WhereText(c, env, cs); where' == [] || Opens(where'[0], {"WHERE"})
  {
    hide Connect, EmitClauses, Chosen;
  }

  lemma {:induction false} SourceHasNoWhere(c: Compiler, env: Env, cs: seq<Clause>)
    requires NamedJoins(Components(cs, Joins, c.Engine()))
    ensures var source := SourceText(c, env, cs);
      source != [] && source[0] == Sym("FROM") && forall t <- source :: !Opens(t, {"WHERE"})
  {
    hide EmitClauses, Chosen, Components, Quiet, Joined;
    W.SectionsQuiet(c, env, cs, Ast.From);
    W.SectionsQuiet(c, env, cs, Joins);
    var tables, joins := EmitClauses(c, env, Chosen(c, cs, Ast.From)), EmitClauses(c, env, Chosen(c, cs, Joins));
    W.SectionWords();
    QuietJoined(joins, "");
    TableHasNoWhere(tables);
    QuietHasNoWhere(Joined(joins, "").sql);
  }

  lemma {:induction false} TableHasNoWhere(parts: seq<Out>)
    requires AllQuiet(parts)
    ensures forall t <- TableSection(parts).sql :: !Opens(t, {"WHERE"})
  {
    if parts != [] { QuietHasNoWhere(parts[0].sql); }
    hide Quiet;
  }

  lemma {:induction false} QuietHasNoWhere(ts: seq<Token>)
    requires Quiet(ts)
    ensures forall t <- ts :: !Opens(t, {"WHERE"})
  {
    forall t | t in ts ensures !Opens(t, {"WHERE"}) { assert !Opens(t, Words); }
  }

  lemma {:induction false} ShellRead(c: Compiler, kind: string, comment: string, text: seq<Token>)
    requires text != [] && !text[0].Remark?
    ensures ReadInner(Shell(c, kind, Commented(Text(text), comment).sql)) == Some(text)
  {
    var inner := Commented(Text(text), comment).sql;
    assert comment != "" ==> inner[1..] == text;
    var front := [Sym("SELECT"), Sym(S.Upper(kind) + "("), Ident("*"), Sym(")")] + NameText(c, kind) + [Sym("FROM"), Sym("(")];
    var back := [Sym(")")] + AliasText(c, kind + "Query");
    ShellIs(c, kind, inner);
    FrontRead(front, inner, back);
  }

  lemma {:induction false} ShellIs(c: Compiler, kind: string, inner: seq<Token>)
    ensures var front := [Sym("SELECT"), Sym(S.Upper(kind) + "("), Ident("*"), Sym(")")] + NameText(c, kind) + [Sym("FROM"), Sym("(")];
      && Shell(c, kind, inner) == front + ([Inner(inner)] + ([Sym(")")] + AliasText(c, kind + "Query")))
      && forall t <- front :: !t.Inner?
  {
    var alias := AliasText(c, kind + "Query");
    assert [Sym("FROM")] + ([Sym("("), Inner(inner), Sym(")")] + alias)
      == [Sym("FROM"), Sym("(")] + ([Inner(inner)] + ([Sym(")")] + alias));
  }

  lemma {:induction false} FrontRead(front: seq<Token>, inner: seq<Token>, back: seq<Token>)
    requires forall t <- front :: !t.Inner?
    ensures ReadInner(front + ([Inner(inner)] + back)) ==
      Some(if inner != [] && inner[0].Remark? then inner[1..] else inner)
  {
    var ts := front + ([Inner(inner)] + back);
    if front != [] {
      assert ts[0] == front[0] && ts[1..] == front[1..] + ([Inner(inner)] + back);
      FrontRead(front[1..], inner, back);
    }
  }

  // ----- the main result --------------------------------------------------------------------------

  /** For every dialect and database: what the printed distinct form counts are the
      tuples of target values, null and "*" included, among the rows of the original
      source that pass the original WHERE, each once; their number is the size of
      that set. */
  lemma {:induction false} DistinctCountPreserved(c: Compiler, q: Query, kind: string, columns: seq<string>, D: Sources)
    requires var cl := One(q.clauses, Aggregate, c.Engine()); cl.Some? && cl.value.body == Aggregated(kind, columns)
    requires q.distinct && NamedJoins(Components(q.clauses, Joins, c.Engine()))
    requires OffsetOf(c, q.clauses) == 0 && forall of <- {Having, Combine} :: Components(q.clauses, of, c.Engine()) == []
    ensures var read := ReadDistinct(D, EmitQuery(c, map[], TransformAggregate(q, c.Engine())).sql);
      var rows := Passing(D(SourceText(c, q.variables, q.clauses)), WhereText(c, q.variables, q.clauses));
      var tuples := TupleSet(rows, Compared(c, q, columns));
      read.Some? && |read.value| == |tuples| && forall t :: t in read.value <==> t in tuples
  {
    hide TransformAggregate, EmitQuery, InnerQuery, Components, SourceText, WhereText, Shell, One, OffsetOf, NamedJoins,
      DistinctNames, Compared, UpTo, Keywords.From, Distinct, TupleSet, Passing, ReadNames, ReadInner, ReadDistinct, Commented;
    var source, where' := SourceText(c, q.variables, q.clauses), WhereText(c, q.variables, q.clauses);
    var inner := InnerQuery(q, kind, columns);
    var text, names, rest := EmitQuery(c, map[], inner).sql, DistinctNames(c, q, columns), source + where';
    DistinctPrints(c, q, kind, columns);
    SourceSplits(c, q.variables, q.clauses);
    assert rest[0] == source[0];
    HeadRead(c, q, columns, rest);
    SelectSplits(names, source, where');
    CommentedText(EmitQuery(c, map[], inner), inner.comment);
    ShellRead(c, kind, inner.comment, text);
    ReadsDistinct(D, EmitQuery(c, map[], TransformAggregate(q, c.Engine())).sql, text, Compared(c, q, columns), rest);
    DistinctIsSet(Passing(D(source), where'), Compared(c, q, columns));
  }

  lemma {:induction false} SelectSplits(names: seq<Token>, source: seq<Token>, where': seq<Token>)
    ensures var text := [Sym("SELECT"), Sym("DISTINCT")] + names + source + where';
      && text != [] && !text[0].Remark? && |text| >= 2
      && text[..2] == [Sym("SELECT"), Sym("DISTINCT")] && text[2..] == names + (source + where')
  {
    assert [Sym("SELECT"), Sym("DISTINCT")] + names + source + where' == [Sym("SELECT"), Sym("DISTINCT")] + (names + (source + where'));
  }

  lemma {:induction false} CommentedText(out: Out, comment: string)
    ensures Commented(out, comment).sql == Commented(Text(out.sql), comment).sql
  {
  }

  lemma {:induction false} ReadsDistinct(D: Sources, sql: seq<Token>, inner: seq<Token>, names: seq<string>, rest: seq<Token>)
    requires ReadInner(sql) == Some(inner) && |inner| >= 2 && inner[..2] == [Sym("SELECT"), Sym("DISTINCT")]
    requires ReadNames(inner[2..]) == Some(Projection(names, rest))
    ensures ReadDistinct(D, sql)
      == Some(Distinct(Passing(D(UpTo(rest, {"WHERE"})), Keywords.From(rest, {"WHERE"})), names))
  {
    hide ReadInner, ReadNames, Distinct, Passing, UpTo, Keywords.From;
  }

  // ----- the multi-column form, read back -----------------------------------------------------------

  /** The rows that a counting statement counts: the SELECT 1 inside it. */
  function ReadCounted(D: Sources, sql: seq<Token>): Option<seq<Row>> {
    match ReadInner(sql)
    case None => None
    case Some(inner) =>
      if |inner| < 2 || inner[..2] != [Sym("SELECT"), Sym("1")] then None
      else Some(Passing(D(UpTo(inner[2..], {"WHERE"})), Keywords.From(inner[2..], {"WHERE"})))
  }

  /** The printed multi-column form counts exactly the rows that CountExact and
      CountPreserved speak about. */
  lemma {:induction false} CountReadsBack(c: Compiler, q: Query, kind: string, columns: seq<string>, D: Sources)
    requires var cl := One(q.clauses, Aggregate, c.Engine()); cl.Some? && cl.value.body == Aggregated(kind, columns)
    requires |columns| != 1 && !q.distinct && NamedJoins(Components(q.clauses, Joins, c.Engine()))
    requires OffsetOf(c, q.clauses) == 0 && forall of <- {Having, Combine} :: Components(q.clauses, of, c.Engine()) == []
    ensures ReadCounted(D, EmitQuery(c, map[], TransformAggregate(q, c.Engine())).sql)
      == Some(Counted(c, q, kind, columns, D(SourceText(c, q.variables, q.clauses))))
  {
    hide TransformAggregate, EmitQuery, InnerQuery, Components, SourceText, WhereText, Shell, One, OffsetOf, NamedJoins,
      UpTo, Keywords.From, Passing, ReadInner, Commented;
    var inner := InnerQuery(q, kind, columns);
    var source, where' := SourceText(c, q.variables, q.clauses), WhereText(c, q.variables, inner.clauses);
    var text := EmitQuery(c, map[], inner).sql;
    CountPrints(c, q, kind, columns);
    SourceHasNoWhere(c, q.variables, q.clauses);
    WhereOpens(c, q.variables, inner.clauses);
    SplitsAt(source, where', {"WHERE"});
    assert text == [Sym("SELECT"), Sym("1")] + (source + where');
    assert text[..2] == [Sym("SELECT"), Sym("1")] && text[2..] == source + where';
    CommentedText(EmitQuery(c, map[], inner), inner.comment);
    ShellRead(c, kind, inner.comment, text);
  }
}
