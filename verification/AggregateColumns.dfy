/** What a projected aggregate column computes, read back: its function, its column,
    the condition of its filter in either of the two forms, and its alias. */
module AggregateColumns {
  import opened Ast
  import opened Conditions
  import opened Dialects
  import opened Emit
  import opened Placeholders
  import S = Strings
  import VM = VerbMeaning

  /** An aggregate as printed; no terms stand for no filter. */
  datatype Read = Read(call: string, column: string, filter: seq<Term>, alias: string)

  // ----- the reader ------------------------------------------------------------------------------

  /** A call's opening, without its parenthesis. */
  function ReadCall(t: Token): Option<string> {
    if t.Sym? && t.text != "" && t.text[|t.text| - 1] == '(' then Some(t.text[..|t.text| - 1]) else None
  }

  /** The text before an alias, and the alias. */
  function ReadAlias(ts: seq<Token>): (seq<Token>, string) {
    if ts == [] || !ts[|ts| - 1].Quoted? then (ts, "")
    else
      var body := ts[..|ts| - 1];
      (if body != [] && body[|body| - 1] == Sym("AS") then body[..|body| - 1] else body, ts[|ts| - 1].alias)
  }

  function ReadFilter(ts: seq<Token>): Option<seq<Term>> {
    match ParseCondition(ts)
    case None => None
    case Some(Parsed(terms, rest)) => if rest == [] then Some(terms) else None
  }

  function ReadBody(ts: seq<Token>, alias: string): Option<Read> {
    var n := |ts|;
    if n < 3 || ReadCall(ts[0]).None? then None
    else if n == 3 && ts[1].Ident? && ts[2] == Sym(")") then Some(Read(ReadCall(ts[0]).value, ts[1].name, [], alias))
    else if n >= 5 && ts[1].Ident? && ts[2] == Sym(") FILTER (WHERE") && ts[n - 1] == Sym(")") then
      match ReadFilter(ts[3..n - 1])
      case None => None
      case Some(terms) => Some(Read(ReadCall(ts[0]).value, ts[1].name, terms, alias))
    else if n >= 6 && ts[1] == Sym("CASE WHEN") && ts[n - 3] == Sym("THEN") && ts[n - 2].Ident? && ts[n - 1] == Sym("END)") then
      match ReadFilter(ts[2..n - 3])
      case None => None
      case Some(terms) => Some(Read(ReadCall(ts[0]).value, ts[n - 2].name, terms, alias))
    else None
  }

  function ReadAggregate(ts: seq<Token>): Option<Read> { ReadBody(ReadAlias(ts).0, ReadAlias(ts).1) }

  // ----- reading back --------------------------------------------------------------------------------

  lemma {:induction false} CallReads(name: string)
    ensures ReadCall(Sym(name + "(")) == Some(name)
  {
    assert (name + "(")[..|name + "("| - 1] == name;
  }

  lemma {:induction false} AliasReads(c: Compiler, body: seq<Token>, alias: string)
    requires body != [] && !body[|body| - 1].Quoted? && body[|body| - 1] != Sym("AS")
    ensures ReadAlias(body + AliasText(c, alias)) == (body, alias)
  {
    var ts := body + AliasText(c, alias);
    if alias == "" {
      assert ts == body;
    } else if c.dialect.Oracle? {
      assert ts[..|ts| - 1] == body;
    } else {
      assert ts[..|ts| - 1] == body + [Sym("AS")];
      assert (body + [Sym("AS")])[..|body|] == body;
    }
  }

  lemma {:induction false} PlainReads(name: string, column: string, alias: string)
    ensures ReadBody([Sym(name + "("), Ident(column), Sym(")")], alias) == Some(Read(name, column, [], alias))
  {
    CallReads(name);
    hide ReadCall, ReadFilter;
  }

  lemma {:induction false} FilterReads(name: string, column: string, condition: seq<Token>, alias: string)
    requires condition != [] && ReadFilter(condition).Some?
    ensures ReadBody([Sym(name + "("), Ident(column), Sym(") FILTER (WHERE")] + condition + [Sym(")")], alias) ==
      Some(Read(name, column, ReadFilter(condition).value, alias))
  {
    CallReads(name);
    hide ReadCall, ReadFilter;
    var ts := [Sym(name + "("), Ident(column), Sym(") FILTER (WHERE")] + condition + [Sym(")")];
    assert ts[3..|ts| - 1] == condition;
  }

  lemma {:induction false} CaseReads(name: string, column: string, condition: seq<Token>, alias: string)
    requires condition != [] && ReadFilter(condition).Some?
    ensures ReadBody([Sym(name + "("), Sym("CASE WHEN")] + condition + [Sym("THEN"), Ident(column), Sym("END)")], alias) ==
      Some(Read(name, column, ReadFilter(condition).value, alias))
  {
    CallReads(name);
    hide ReadCall, ReadFilter;
    var ts := [Sym(name + "("), Sym("CASE WHEN")] + condition + [Sym("THEN"), Ident(column), Sym("END)")];
    assert ts[2..|ts| - 3] == condition;
  }

  /** The printed column, around whatever condition its filter printed. */
  lemma {:induction false} ColumnReads(c: Compiler, aggregate: string, column: string, filter: Out)
    requires filter.sql != [] ==> ReadFilter(filter.sql).Some?
    ensures var (name, alias) := S.SplitAlias(column);
      ReadAggregate(AggregateColumnOut(c, aggregate, column, filter).sql) ==
        Some(Read(S.Upper(aggregate), name, if filter.sql == [] then [] else ReadFilter(filter.sql).value, alias))
  {
    var (name, alias) := S.SplitAlias(column);
    var call := S.Upper(aggregate);
    hide S.SplitAlias, S.Upper, AliasText, ReadFilter, ReadBody, ReadAlias;
    assert |"AS"| == 2 && |")"| == 1 && |"END)"| == 4;
    if filter.sql == [] {
      var body := [Sym(call + "("), Ident(name), Sym(")")];
      PlainReads(call, name, alias);
      AliasReads(c, body, alias);
    } else if c.SupportsFilter() {
      var body := [Sym(call + "("), Ident(name), Sym(") FILTER (WHERE")] + filter.sql + [Sym(")")];
      FilterReads(call, name, filter.sql, alias);
      AliasReads(c, body, alias);
    } else {
      var body := [Sym(call + "("), Sym("CASE WHEN")] + filter.sql + [Sym("THEN"), Ident(name), Sym("END)")];
      CaseReads(call, name, filter.sql, alias);
      AliasReads(c, body, alias);
    }
  }

  /** The truth of a filter on a row; no filter takes every row. */
  function Takes(I: Reading, filter: seq<Term>): Truth { if filter == [] then True else EvalTerms(I, filter) }

  /** The conditions of an aggregate's filter that the dialect sees. */
  function FilterConditions(c: Compiler, filter: Option<Query>): seq<Clause> {
    if filter.None? then [] else Components(filter.value.clauses, Where, c.Engine())
  }

  /** What the filter prints is read as what its conditions say. */
  lemma {:induction false} FilterMeans(c: Compiler, env: Env, I: Reading, filter: Query)
    requires Lawful(I) && Built(filter.clauses)
    ensures var sql := EmitGroup(c, env, filter).sql; var list := Components(filter.clauses, Where, c.Engine());
      && (sql != [] ==> ReadFilter(sql).Some?)
      && Takes(I, if sql == [] then [] else ReadFilter(sql).value) == VM.Passes(Items(c, env, I, list))
  {
    var list := Components(filter.clauses, Where, c.Engine());
    var sql := EmitGroup(c, env, filter).sql;
    GroupText(c, env, filter);
    SectionConditions(c, filter.clauses, Where);
    hide EmitGroup, Built, Components, EmitClauses, ParseCondition, Connect, Conditions.Runs, AnyOf, Lawful, OmittedAll, Items;
    VM.NoItems(c, env, I, list);
    SectionMeans(c, env, I, filter.clauses, Where, "WHERE");
    if sql != [] { assert ([Sym("WHERE")] + sql)[1..] == sql; }
  }

  lemma {:induction false} GroupText(c: Compiler, env: Env, filter: Query)
    ensures var list := Components(filter.clauses, Where, c.Engine());
      EmitGroup(c, env, filter).sql == Connect(list, EmitClauses(c, env, list), false).sql
  {
    hide Components, EmitClauses, Connect;
  }

  /** Every aggregate column, with FILTER or with CASE as the dialect has it: the printed
      column applies the function to the column, under the alias, over the rows that the
      conditions of its filter let through. */
  lemma {:induction false} AggregateMeans(c: Compiler, env: Env, I: Reading, cl: Clause)
    requires cl.body.AggregateColumn? && BuiltClause(cl) && Lawful(I)
    ensures var (name, alias) := S.SplitAlias(cl.body.column); var read := ReadAggregate(EmitClause(c, env, cl).sql);
      && read.Some? && read.value.call == S.Upper(cl.body.aggregate) && read.value.column == name && read.value.alias == alias
      && Takes(I, read.value.filter) == VM.Passes(Items(c, env, I, FilterConditions(c, cl.body.filter)))
  {
    hide BuiltClause, Built, EmitClause, EmitGroup, AggregateColumnOut, S.SplitAlias, S.Upper, ReadAggregate, ReadFilter, Items,
      Conditions.Runs, AnyOf, Components, Lawful, EvalTerms;
    var AggregateColumn(aggregate, column, filter) := cl.body;
    var condition := if filter.Some? then EmitGroup(c, env, filter.value) else Nothing;
    ColumnText(c, env, cl);
    if filter.Some? {
      FilterBuilt(cl);
      FilterMeans(c, env, I, filter.value);
    }
    ColumnReads(c, aggregate, column, condition);
    assert filter.None? ==> Items(c, env, I, []) == [] by { NoneSaid(c, env, I); }
  }

  lemma {:induction false} FilterBuilt(cl: Clause)
    requires cl.body.AggregateColumn? && BuiltClause(cl) && cl.body.filter.Some?
    ensures Built(cl.body.filter.value.clauses)
  {
  }

  lemma {:induction false} NoneSaid(c: Compiler, env: Env, I: Reading)
    ensures Items(c, env, I, []) == []
  {
  }

  lemma {:induction false} ColumnText(c: Compiler, env: Env, cl: Clause)
    requires cl.body.AggregateColumn?
    ensures var AggregateColumn(aggregate, column, filter) := cl.body;
      EmitClause(c, env, cl) ==
        AggregateColumnOut(c, aggregate, column, if filter.Some? then EmitGroup(c, env, filter.value) else Nothing)
  {
    hide AggregateColumnOut, EmitGroup;
  }
}
