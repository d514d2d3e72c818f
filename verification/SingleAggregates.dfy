/** An aggregate over one column: the call read back from the printed head, over the
    sections that the query prints without it. */
module SingleAggregates {
  import opened Ast
  import opened Dialects
  import opened Emit
  import opened PagedQueries
  import opened Placeholders
  import opened Sections
  import opened Statements
  import P = Paging
  import S = Strings
  import SA = StatementAlignment
  import SM = SelectMeaning
  import W = Windows

  /** NAME([DISTINCT] column) alias. */
  datatype Call = Call(name: string, distinct: bool, column: string, alias: string)

  function ReadCallText(ts: seq<Token>): Option<Call> {
    if |ts| < 4 || !ts[0].Sym? || ts[0].text == "" || ts[0].text[|ts[0].text| - 1] != '(' then None
    else
      var name := ts[0].text[..|ts[0].text| - 1];
      var distinct := ts[1] == Sym("DISTINCT");
      var rest := if distinct then ts[2..] else ts[1..];
      if |rest| < 3 || !rest[0].Ident? || rest[1] != Sym(")") then None
      else if rest[2].Quoted? then Some(Call(name, distinct, rest[0].name, rest[2].alias))
      else if |rest| > 3 && rest[2] == Sym("AS") && rest[3].Quoted? then Some(Call(name, distinct, rest[0].name, rest[3].alias))
      else None
  }

  /** The call behind SELECT and the place of TOP. */
  function ReadCall(head: seq<Token>): Option<Call> {
    if head == [] || head[0] != Sym("SELECT") then None
    else if |head| > 3 && P.OpensTop(head[1]) && P.Bound(head[2]) then ReadCallText(head[4..])
    else ReadCallText(head[1..])
  }

  predicate Aggregates(c: Compiler, q: Query, kind: string, column: string) {
    var cl := One(q.clauses, Aggregate, c.Engine());
    cl.Some? && cl.value.body == Aggregated(kind, [column])
  }

  lemma {:induction false} CallReads(c: Compiler, kind: string, distinct: bool, column: string)
    ensures var ts := [Sym(S.Upper(kind) + "(")] + (if distinct then [Sym("DISTINCT")] else [])
                      + [Ident(column), Sym(")")] + NameText(c, kind);
      ReadCallText(ts) == Some(Call(S.Upper(kind), distinct, column, kind)) && |ts| >= 4 && !P.Bound(ts[1])
  {
    hide S.Upper;
    var call := S.Upper(kind) + "(";
    assert call[..|call| - 1] == S.Upper(kind) && call[|call| - 1] == '(';
  }

  lemma {:induction false} CallBehindTop(top: seq<Token>, call: seq<Token>)
    requires W.IsTop(top) && |call| >= 4 && !P.Bound(call[1])
    ensures ReadCall([Sym("SELECT")] + (top + call)) == ReadCallText(call)
  {
    hide ReadCallText;
    var head := [Sym("SELECT")] + (top + call);
    if top == [] {
      assert head[1..] == call && head[2] == call[1];
    } else {
      assert head[1] == top[0] && head[2] == top[1] && head[4..] == call;
    }
  }

  lemma {:induction false} HeadReads(c: Compiler, q: Query, kind: string, column: string, columns: seq<Out>)
    requires Aggregates(c, q, kind, column)
    ensures ReadCall(HeadSection(c, q, columns).sql) == Some(Call(S.Upper(kind), q.distinct, column, kind))
  {
    var top := TopSection(c, LimitOf(c, q.clauses), OffsetOf(c, q.clauses));
    HeadIs(c, q, columns);
    W.TopAndTail(c, false, LimitOf(c, q.clauses), OffsetOf(c, q.clauses));
    CallReads(c, kind, q.distinct, column);
    hide HeadSection, TopSection, LimitSection, LimitOf, OffsetOf, One, ReadCall, ReadCallText, S.Upper, NameText, W.IsTop;
    CallBehindTop(top.sql, HeadRest(c, q, columns).sql);
  }

  /** Every query in the shape of an aggregate over one column, inlined or not: its
      head is the call, with DISTINCT exactly when duplicates are removed. */
  lemma {:induction false} CallIs(c: Compiler, outer: Env, q: Query, kind: string, column: string)
    requires Built(q.clauses) && NamedJoins(Components(q.clauses, Joins, c.Engine()))
    requires NamedCombines(Components(q.clauses, Combine, c.Engine())) && Aggregates(c, q, kind, column)
    ensures ReadCall(ReadSections(Unwrapped(EmitQuery(c, outer, q).sql)).head) == Some(Call(S.Upper(kind), q.distinct, column, kind))
  {
    var n := Read(c, q);
    SelectReads(c, outer, q);
    SM.ReadBuilt(c, q);
    hide EmitQuery, ReadSections, Unwrapped, Built, NamedCombines, NamedJoins, ReadCall, HeadSection, EmitClauses, Chosen,
      TableSection, ConditionSection, Emit.Listed, LimitSection, LimitOf, OffsetOf, Joined, One, Read, Components, S.Upper;
    HeadReads(c, n, kind, column, EmitClauses(c, outer + q.variables, Chosen(c, n.clauses, Select)));
  }

  // ----- the rewrite keeps the rest ------------------------------------------------------------------

  predicate SameSource(a: Sections, b: Sections) {
    a.from == b.from && a.joins == b.joins && a.where == b.where && a.having == b.having && a.combined == b.combined
  }

  lemma {:induction false} SourcesAlike(c: Compiler, outer: Env, a: Query, b: Query)
    requires a.variables == b.variables && Built(a.clauses) && Built(b.clauses)
    requires forall of <- {Ast.From, Joins, Where, Having, Combine} ::
      Components(a.clauses, of, c.Engine()) == Components(b.clauses, of, c.Engine())
    requires NamedJoins(Components(a.clauses, Joins, c.Engine())) && NamedCombines(Components(a.clauses, Combine, c.Engine()))
    ensures SameSource(ReadSections(Unwrapped(EmitQuery(c, outer, a).sql)), ReadSections(Unwrapped(EmitQuery(c, outer, b).sql)))
  {
    SelectReads(c, outer, a);
    SelectReads(c, outer, b);
    hide EmitQuery, ReadSections, Unwrapped, Built, NamedCombines, NamedJoins, HeadSection, EmitClauses, Chosen,
      TableSection, ConditionSection, Emit.Listed, LimitSection, LimitOf, OffsetOf, Joined, Read, Components, W.Ordering;
    forall of | of in {Ast.From, Joins, Where, Having, Combine}
      ensures Chosen(c, Read(c, a).clauses, of) == Chosen(c, Read(c, b).clauses, of)
    {
      ReadSame(c, a, of);
      ReadSame(c, b, of);
      SameChosen(c, a.clauses, b.clauses, of);
    }
  }

  /** The rewrite of an aggregate over one column, without DISTINCT: the statement is
      the call over the query's own tables, joins, conditions and combined queries, and
      is not grouped. */
  lemma {:induction false} SingleAggregateReads(c: Compiler, outer: Env, q: Query, kind: string, column: string)
    requires Built(q.clauses) && NamedJoins(Components(q.clauses, Joins, c.Engine()))
    requires NamedCombines(Components(q.clauses, Combine, c.Engine())) && Aggregates(c, q, kind, column) && !q.distinct
    ensures var s := ReadSections(Unwrapped(EmitQuery(c, outer, TransformAggregate(q, c.Engine())).sql));
      && ReadCall(s.head) == Some(Call(S.Upper(kind), false, column, kind))
      && SameSource(s, ReadSections(Unwrapped(EmitQuery(c, outer, q).sql)))
      && s.group == []
  {
    var t := TransformAggregate(q, c.Engine());
    Rewritten(c, q, kind, column);
    hide EmitQuery, ReadSections, Unwrapped, Built, NamedCombines, NamedJoins, ReadCall, S.Upper, TransformAggregate, SameSource, Components, One,
      Aggregates;
    CallIs(c, outer, t, kind, column);
    SourcesAlike(c, outer, t, q);
    SM.GroupingText(c, outer, t);
    NoClauses(c, outer + t.variables);
  }

  lemma {:induction false} NoClauses(c: Compiler, env: Env)
    ensures EmitClauses(c, env, []) == []
  {
  }

  /** The rewritten query has the sections of the original, without its grouping. */
  lemma {:induction false} Rewritten(c: Compiler, q: Query, kind: string, column: string)
    requires Built(q.clauses) && Aggregates(c, q, kind, column) && !q.distinct
    ensures var t := TransformAggregate(q, c.Engine());
      && t.variables == q.variables && t.distinct == q.distinct && Built(t.clauses) && Aggregates(c, t, kind, column)
      && (forall of <- {Ast.From, Joins, Where, Having, Combine} :: Components(t.clauses, of, c.Engine()) == Components(q.clauses, of, c.Engine()))
      && Components(t.clauses, Group, c.Engine()) == []
  {
    var t := TransformAggregate(q, c.Engine());
    assert t == Drop(q, {Limit, Order, Group});
    SA.BuiltTransform(q, c.Engine());
    hide Built, TransformAggregate, Components, One, Aggregates;
    forall of | of in {Ast.From, Joins, Where, Having, Combine, Aggregate}
      ensures Components(t.clauses, of, c.Engine()) == Components(q.clauses, of, c.Engine())
    {
      ComponentsWithout(q.clauses, {Limit, Order, Group}, of, c.Engine());
    }
    ComponentsDropped(q.clauses, {Limit, Order, Group}, Group, c.Engine());
    AggregateKept(c, t, q, kind, column);
  }

  lemma {:induction false} AggregateKept(c: Compiler, t: Query, q: Query, kind: string, column: string)
    requires Components(t.clauses, Aggregate, c.Engine()) == Components(q.clauses, Aggregate, c.Engine())
    ensures Aggregates(c, t, kind, column) == Aggregates(c, q, kind, column)
  {
    hide Components;
  }
}
