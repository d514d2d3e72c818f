/** Inputs on which the rewritten multi-column COUNT is and is not what was meant:
    rows, queries and the programs that build them. */
module CountingWitnesses {
  import opened Ast
  import opened Dialects
  import opened Emit
  import opened Statements
  import opened Placeholders
  import opened Conditions
  import opened Aggregates
  import B = Building
  import FM = FilterMeaning

  // ----- rows ----------------------------------------------------------------------------------------------

  /** A row that only knows null tests. */
  function NullRow(cells: map<string, int>): Row { Row((ts: seq<Token>) => NullReading(cells, ts), cells) }

  function NullReading(cells: map<string, int>, ts: seq<Token>): Truth {
    if |ts| == 1 then (if ts[0] == Sym("1 = 1") then True else if ts[0] == Sym("1 = 0") then False else Unknown)
    else if |ts| == 2 && ts[0].Ident? && ts[1].Sym? then NullWord(ts[0].name !in cells, ts[1].text)
    else Unknown
  }

  function NullWord(isNull: bool, word: string): Truth {
    if word == "IS NULL" then (if isNull then True else False)
    else if word == "IS NOT NULL" then (if isNull then False else True)
    else Unknown
  }

  lemma {:induction false} NullWords(isNull: bool)
    ensures NullWord(isNull, "IS NULL") == if isNull then True else False
    ensures NullWord(isNull, "IS NOT NULL") == if isNull then False else True
    ensures NullWord(isNull, "IN") == Unknown && NullWord(isNull, "NOT IN") == Unknown
  {
    assert |"NOT IN"| == 6 && |"IN"| == 2 && |"IS NULL"| == 7 && |"IS NOT NULL"| == 11;
  }

  lemma {:induction false} NullKeywords(cells: map<string, int>, a: Token, b: Token, tail: seq<Token>)
    requires forall isNull :: NullWord(isNull, "IN") == Unknown && NullWord(isNull, "NOT IN") == Unknown
    requires (a == KBetween(true) && b == KBetween(false)) || (a == Sym("NOT IN") && b == Sym("IN"))
    ensures forall t: Token :: NullReading(cells, [t, a] + tail) == NullReading(cells, [t, b] + tail) == Unknown
  {
    hide NullWord;
    forall t: Token ensures NullReading(cells, [t, a] + tail) == NullReading(cells, [t, b] + tail) == Unknown {
      assert ([t, a] + tail)[1] == a && ([t, b] + tail)[1] == b;
    }
  }

  lemma {:induction false} NullTails(cells: map<string, int>)
    ensures var I := NullRow(cells).reading;
      && (forall column, tail :: Opposite(I, [Ident(column), KBetween(true)] + tail, [Ident(column), KBetween(false)] + tail))
      && (forall column, tail :: Opposite(I, [Ident(column), Sym("NOT IN")] + tail, [Ident(column), Sym("IN")] + tail))
  {
    var I := NullRow(cells).reading;
    assert forall isNull :: NullWord(isNull, "IN") == Unknown && NullWord(isNull, "NOT IN") == Unknown by {
      forall isNull ensures NullWord(isNull, "IN") == Unknown && NullWord(isNull, "NOT IN") == Unknown { NullWords(isNull); }
    }
    hide NullWord, NullReading;
    forall column, tail: seq<Token>
      ensures Opposite(I, [Ident(column), KBetween(true)] + tail, [Ident(column), KBetween(false)] + tail)
    {
      NullKeywords(cells, KBetween(true), KBetween(false), tail);
    }
    forall column, tail: seq<Token>
      ensures Opposite(I, [Ident(column), Sym("NOT IN")] + tail, [Ident(column), Sym("IN")] + tail)
    {
      NullKeywords(cells, Sym("NOT IN"), Sym("IN"), tail);
    }
  }

  lemma {:induction false} NullTests(cells: map<string, int>, column: string)
    ensures var row := NullRow(cells);
      && NullTest(row, column) == (if row.Null(column) then True else False)
      && Opposite(row.reading, [Ident(column), Sym("IS NOT NULL")], [Ident(column), Sym("IS NULL")])
  {
    NullWords(column !in cells);
    hide NullWord;
  }

  lemma {:induction false} NullConstants(cells: map<string, int>)
    ensures var I := NullRow(cells).reading;
      && I([Sym("1 = 1")]) == True && I([Sym("1 = 0")]) == False
      && (forall tokens :: Opposite(I, [Sym("NOT EXISTS"), Inner(tokens)], [Sym("EXISTS"), Inner(tokens)]))
      && (forall column, value ::
            Opposite(I, [Ident(column), Sym("!="), Sym(value)], [Ident(column), Sym("="), Sym(value)]))
  {
    assert |"1 = 1"| == 5 && "1 = 1"[4] != "1 = 0"[4];
    hide NullWord;
  }

  lemma {:induction false} NullRowIsSound(cells: map<string, int>)
    ensures Sound(NullRow(cells))
  {
    NullTails(cells);
    NullConstants(cells);
    hide NullRow, Opposite, NullTest;
    forall column
      ensures var row := NullRow(cells);
        && NullTest(row, column) == (if row.Null(column) then True else False)
        && Opposite(row.reading, [Ident(column), Sym("IS NOT NULL")], [Ident(column), Sym("IS NULL")])
    {
      NullTests(cells, column);
    }
  }

  // ----- OR ------------------------------------------------------------------------------------------------

  /** WHERE x IS NULL OR y IS NULL. */
  function OrQuery(): Query {
    EmptyQuery.(clauses := [
      Clause("", FromTable("t")), Clause("", Condition(Where, false, false, IsNull("x"))),
      Clause("", Condition(Where, true, false, IsNull("y")))])
  }

  function WithoutX(): Row { NullRow(map["y" := 0, "z" := 0]) }

  /** Counted over x and z, a row without x is counted. */
  lemma {:induction false} OrEscapesGuards(c: Compiler, kind: string)
    ensures Sound(WithoutX()) && Built(OrQuery().clauses) && AppendsVisibly(c, OrQuery())
    ensures Counted(c, OrQuery(), kind, ["x", "z"], [WithoutX()]) == [WithoutX()]
    ensures Intended(c, OrQuery(), ["x", "z"], [WithoutX()]) == []
  {
    var q, row, columns := OrQuery(), WithoutX(), ["x", "z"];
    OrQueryIs(c);
    WithoutXIs(c);
    assert !NonNull(row, columns) by { assert "x" in columns; }
    hide OrQuery, WithoutX, Sound, Built, InnerQuery, Components, WhereText, Items, NonNull;
    WitnessRuns();
    hide Runs, Earlier;
    assert Overcounted(c, q, columns, row);
    hide Overcounted;
    GuardedRow(c, q, kind, columns, row);
    OneRowCounts(row, WhereText(c, q.variables, q.clauses), WhereText(c, q.variables, InnerQuery(q, kind, columns).clauses), columns);
  }

  lemma {:induction false} OrQueryIs(c: Compiler)
    ensures var q := OrQuery();
      && Built(q.clauses) && AppendsVisibly(c, q) && !q.distinct && q.variables == map[]
  {
    var t, a, b := OrQuery().clauses[0], OrQuery().clauses[1], OrQuery().clauses[2];
    assert BuiltClause(t) && BuiltClause(a) && BuiltClause(b);
    TwoConditions(c, t, a, b);
  }

  lemma {:induction false} WithoutXIs(c: Compiler)
    ensures Sound(WithoutX()) && WithoutX().Null("x")
    ensures WhereItems(c, OrQuery(), WithoutX()) == [Item(false, True), Item(true, False)]
  {
    hide Sound, NullReading;
    NullRowIsSound(map["y" := 0, "z" := 0]);
    var row := WithoutX();
    TestsOfX();
    hide NullRow, NullTest;
    var t, a, b := OrQuery().clauses[0], OrQuery().clauses[1], OrQuery().clauses[2];
    TwoConditions(c, t, a, b);
    hide Components, Items;
    WitnessItems(c, row, a, b);
  }

  lemma {:induction false} TestsOfX()
    ensures NullTest(WithoutX(), "x") == True && NullTest(WithoutX(), "y") == False && WithoutX().Null("x")
  {
    NullWords(true);
    NullWords(false);
    hide NullWord;
  }

  lemma {:induction false} OneRowCounts(row: Row, original: seq<Token>, guarded: seq<Token>, columns: seq<string>)
    requires Passes(row, guarded) && !NonNull(row, columns)
    ensures Passing([row], guarded) == [row] && WithValues(Passing([row], original), columns) == []
  {
    CountStep([row], original, guarded, columns);
    assert [row][1..] == [];
  }

  lemma {:induction false} WitnessItems(c: Compiler, row: Row, a: Clause, b: Clause)
    requires a == Clause("", Condition(Where, false, false, IsNull("x"))) && b == Clause("", Condition(Where, true, false, IsNull("y")))
    requires NullTest(row, "x") == True && NullTest(row, "y") == False
    ensures Items(c, map[], row.reading, [a, b]) == [Item(false, True), Item(true, False)]
  {
    assert [a, b][1..] == [b] && [b][1..] == [];
    assert Items(c, map[], row.reading, [b]) == [Item(true, False)];
  }

  lemma {:induction false} WitnessRuns()
    ensures var runs := Runs([Item(false, True), Item(true, False)]); runs == [[True], [False]] && Earlier(runs) == True
  {
    var x, y := Item(false, True), Item(true, False);
    assert [x, y][1..] == [y] && [y][1..] == [];
    assert Runs([y]) == [[False]] && Runs([x, y]) == [[True], [False]];
    assert [[True], [False]][..1] == [[True]];
    FM.SingleRun(True);
  }

  /** An OR does no harm when the runs before it can never hold: counted over any
      columns, x IN () OR y IS NULL is counted exactly on all rows. */
  lemma {:induction false} OrMayBeHarmless(c: Compiler, kind: string, columns: seq<string>, rows: seq<Row>)
    requires forall row <- rows :: Sound(row)
    ensures !AndOnly(c, NeverOr()) && Counted(c, NeverOr(), kind, columns, rows) == Intended(c, NeverOr(), columns, rows)
  {
    var q := NeverOr();
    NeverOrIs(c);
    forall row | row in rows ensures !Overcounted(c, q, columns, row) {
      hide Sound, Built;
      assert Sound(row);
      NeverRuns(c, row);
    }
    hide NeverOr, Sound, Built, AndOnly, Overcounted;
    CountExact(c, q, kind, columns, rows);
  }

  function NeverOr(): Query {
    EmptyQuery.(clauses := [
      Clause("", FromTable("t")), Clause("", Condition(Where, false, false, In("x", []))),
      Clause("", Condition(Where, true, false, IsNull("y")))])
  }

  lemma {:induction false} NeverOrIs(c: Compiler)
    ensures var q := NeverOr(); Built(q.clauses) && AppendsVisibly(c, q) && !q.distinct && !AndOnly(c, q)
    ensures Components(NeverOr().clauses, Where, c.Engine()) == [NeverOr().clauses[1], NeverOr().clauses[2]]
  {
    var t, a, b := NeverOr().clauses[0], NeverOr().clauses[1], NeverOr().clauses[2];
    NeverOrBuilt();
    TwoConditions(c, t, a, b);
    hide Components, Built;
    BothKept(c, a, b);
  }

  lemma {:induction false} NeverOrBuilt()
    ensures Built(NeverOr().clauses)
  {
    var t, a, b := NeverOr().clauses[0], NeverOr().clauses[1], NeverOr().clauses[2];
    assert BuiltClause(t) && BuiltClause(a) && BuiltClause(b);
  }

  lemma {:induction false} BothKept(c: Compiler, a: Clause, b: Clause)
    requires a == NeverOr().clauses[1] && b == NeverOr().clauses[2]
    ensures Kept(c, [a, b]) == [a, b] && [a, b][1].body.or
  {
    assert [a, b][1..] == [b] && [b][1..] == [];
    assert Kept(c, [b]) == [b];
  }

  lemma {:induction false} NeverRuns(c: Compiler, row: Row)
    requires Sound(row)
    ensures AppendsVisibly(c, NeverOr()) && !EarlierHolds(c, NeverOr(), row)
  {
    hide Sound, Built, AndOnly, Components, Earlier, Runs;
    NeverOrIs(c);
    var a, b := NeverOr().clauses[1], NeverOr().clauses[2];
    NeverSays(c, row, a);
    assert !Omitted(c, a) && !Omitted(c, b);
    hide Says, Omitted;
    TwoItems(c, row, a, b);
    NeverFirst(Says(c, map[], row.reading, b));
  }

  lemma {:induction false} NeverSays(c: Compiler, row: Row, cl: Clause)
    requires Sound(row) && cl.body.Condition? && cl.body.shape.In? && cl.body.shape.values == [] && !cl.body.not
    ensures Says(c, map[], row.reading, cl) == False
  {
  }

  lemma {:induction false} TwoItems(c: Compiler, row: Row, a: Clause, b: Clause)
    requires a.body.Condition? && b.body.Condition? && !Omitted(c, a) && !Omitted(c, b)
    ensures Items(c, map[], row.reading, [a, b]) ==
      [Item(a.body.or, Says(c, map[], row.reading, a)), Item(b.body.or, Says(c, map[], row.reading, b))]
  {
    hide Says, Omitted;
    assert [a, b][1..] == [b] && [b][1..] == [];
    assert Items(c, map[], row.reading, [b]) == [Item(b.body.or, Says(c, map[], row.reading, b))];
  }

  lemma {:induction false} NeverFirst(rest: Truth)
    ensures Earlier(Runs([Item(false, False), Item(true, rest)])) == False
  {
    var items := [Item(false, False), Item(true, rest)];
    assert items[1..] == [Item(true, rest)] && items[1..][1..] == [];
    assert Runs([Item(true, rest)]) == [[rest]] && Runs(items) == [[False], [rest]];
    assert [[False], [rest]][..1] == [[False]];
    FM.SingleRun(False);
  }

  lemma {:induction false} TwoConditions(c: Compiler, t: Clause, a: Clause, b: Clause)
    requires Tag(t) == From && Tag(a) == Tag(b) == Where && t.engine == a.engine == b.engine == ""
    ensures Components([t, a, b], Where, c.Engine()) == [a, b]
  {
    assert [t, a, b][1..] == [a, b] && [a, b][1..] == [b] && [b][1..] == [];
    assert Components([b], Where, c.Engine()) == [b];
    assert Components([a, b], Where, c.Engine()) == [a, b];
  }

  /** The count of x and z over t, cloned in a block for MySQL: any other dialect
      counts a row without x. */
  lemma {:induction false} StampedCountsTooMany(c: Compiler, kind: string)
    requires c.Engine() != "" && c.Engine() != "mysql"
    ensures var columns := ["x", "z"];
      var before := [B.Put(FromTable("t")), B.Put(Aggregated(kind, columns))];
      var q := B.CloneWithin(before, "mysql", []);
      && B.AllLegal(before)
      && One(q.clauses, Aggregate, c.Engine()) == Some(Clause("", Aggregated(kind, columns)))
      && Counted(c, q, kind, columns, [WithoutX()]) == [WithoutX()]
      && Intended(c, q, columns, [WithoutX()]) == []
  {
    hide NonNull, InnerQuery, B.CloneWithin, B.Legal, Components, One, Sound, NullReading;
    var columns := ["x", "z"];
    var before := [B.Put(FromTable("t")), B.Put(Aggregated(kind, columns))];
    var q := B.CloneWithin(before, "mysql", []);
    var from, count := Clause("", FromTable("t")), Clause("", Aggregated(kind, columns));
    StampedIs(kind, columns);
    FromAndCount(c, from, count);
    var row := WithoutX();
    LacksX();
    hide WithoutX;
    assert !AppendsVisibly(c, q);
    assert WhereText(c, q.variables, q.clauses) == [];
    hide WhereText;
    StampedGuardsVanish(c, q, kind, columns);
    OneRowCounts(row, [], [], columns);
  }

  lemma {:induction false} LacksX()
    ensures !NonNull(WithoutX(), ["x", "z"])
  {
    assert "x" in ["x", "z"] && WithoutX().Null("x");
  }

  lemma {:induction false} StampedIs(kind: string, columns: seq<string>)
    ensures var before := [B.Put(FromTable("t")), B.Put(Aggregated(kind, columns))];
      var q := B.CloneWithin(before, "mysql", []);
      && B.AllLegal(before)
      && q.clauses == [Clause("", FromTable("t")), Clause("", Aggregated(kind, columns))]
      && q.engineScope == "mysql" && !q.distinct
  {
    B.TwoPuts(FromTable("t"), Aggregated(kind, columns), "mysql");
  }

  lemma {:induction false} FromAndCount(c: Compiler, from: Clause, count: Clause)
    requires Tag(from) == From && Tag(count) == Aggregate && from.engine == count.engine == ""
    ensures Components([from, count], Where, c.Engine()) == [] && One([from, count], Aggregate, c.Engine()) == Some(count)
  {
    assert [from, count][1..] == [count] && [count][1..] == [];
    assert Components([count], Where, c.Engine()) == [] && Components([count], Aggregate, c.Engine()) == [count];
    assert Components([from, count], Aggregate, c.Engine()) == [count];
  }
}
