/** The tail of an upsert: no SELECT holds one, and it is read back as the columns it
    updates. */
module Upserts {
  import opened Ast
  import opened Dialects
  import opened Emit
  import opened Keywords
  import opened PagedQueries
  import opened Placeholders
  import opened Sections
  import opened Statements
  import S = Strings
  import W = Windows

  // ----- no SELECT holds one --------------------------------------------------------------------

  const Upsert: set<string> := {"ON DUPLICATE KEY UPDATE"}

  lemma {:induction false} UpsertIsMark()
    ensures Upsert <= Openers && Upsert <= Marks
  {
  }

  lemma {:induction false} CalmHasNoUpsert(ts: seq<Token>)
    requires Calm(ts)
    ensures Free(ts, Upsert)
  {
    UpsertIsMark();
    hide Marks, Openers, Upsert, Free;
    FreeWithin(ts, Upsert, Marks);
  }

  lemma {:induction false} UpsertTexts()
    ensures "FROM" !in Upsert && "WHERE" !in Upsert && "GROUP BY" !in Upsert && "HAVING" !in Upsert && "ORDER BY" !in Upsert
    ensures "SELECT" !in Upsert && "DISTINCT" !in Upsert && "" !in Upsert && "ALL" !in Upsert
    ensures "LIMIT" !in Upsert && "OFFSET" !in Upsert && "LIMIT 18446744073709551615 OFFSET" !in Upsert
  {
    assert |"ON DUPLICATE KEY UPDATE"| == 23;
    assert |"LIMIT 18446744073709551615 OFFSET"| == 33;
  }

  lemma {:induction false} CombinesFree(c: Compiler, env: Env, cs: seq<Clause>)
    requires NamedCombines(cs)
    ensures Free(Joined(EmitClauses(c, env, cs), "").sql, Upsert)
  {
    hide EmitSelect, S.Upper, Upsert;
    var parts := EmitClauses(c, env, cs);
    UpsertTexts();
    forall p | p in parts ensures Free(p.sql, Upsert) {
      var i :| 0 <= i < |parts| && parts[i] == p;
      CombinedIs(c, env, cs, i);
      OperationFree(S.Upper(cs[i].body.operation));
    }
    FreeJoined(parts, "", Upsert);
  }

  lemma {:induction false} CombinedIs(c: Compiler, env: Env, cs: seq<Clause>, i: nat)
    requires i < |cs| && cs[i].body.CombineQuery?
    ensures EmitClauses(c, env, cs)[i] == CombineOut(cs[i].body.operation, cs[i].body.all, EmitSelect(c, env, cs[i].body.query))
  {
    hide EmitSelect, CombineOut;
    if i > 0 { CombinedIs(c, env, cs[1..], i - 1); }
  }

  lemma {:induction false} OperationFree(operation: string)
    requires operation in Combinators
    ensures operation !in Upsert
  {
  }

  lemma {:induction false} SelectText(c: Compiler, outer: Env, q: Query)
    requires c.dialect.MySQL?
    ensures EmitQuery(c, outer, q).sql == Whole(SectionTexts(c, outer + q.variables, q))
  {
    EmitAssembled(c, outer, q);
    AssembleIsWhole(c, outer + q.variables, q);
    hide EmitQuery, Whole, SectionTexts, Assemble, EmitParts, LimitOf, OffsetOf;
  }

  /** A SELECT for MySQL holds no tail of an upsert. */
  lemma {:induction false} SelectHasNoUpsert(c: Compiler, outer: Env, q: Query)
    requires Built(q.clauses) && NamedJoins(Components(q.clauses, Joins, c.Engine())) && c.dialect.MySQL?
    requires NamedCombines(Components(q.clauses, Combine, c.Engine()))
    ensures Free(EmitSelect(c, outer, q).sql, Upsert)
  {
    var env := outer + q.variables;
    SelectText(c, outer, q);
    hide EmitQuery, Whole, SectionTexts, Built, NamedJoins, NamedCombines, Components, Upsert, Free;
    WholeFree(c, env, q);
    RemarkFree(q.comment);
    FreeCat([Remark(q.comment)], EmitQuery(c, outer, q).sql, Upsert);
  }

  lemma {:induction false} RemarkFree(comment: string)
    ensures Free([Remark(comment)], Upsert)
  {
  }

  lemma {:induction false} WholeFree(c: Compiler, env: Env, q: Query)
    requires Built(q.clauses) && NamedJoins(Components(q.clauses, Joins, c.Engine())) && c.dialect.MySQL?
    requires NamedCombines(Components(q.clauses, Combine, c.Engine()))
    ensures Free(Whole(SectionTexts(c, env, q)), Upsert)
  {
    HeadHasNoUpsert(c, env, q);
    SectionsHaveNoUpsert(c, env, q);
    JoinsAreFree(c, env, q.clauses);
    ChosenIs(c, q.clauses, Combine);
    CombinesFree(c, env, Components(q.clauses, Combine, c.Engine()));
    PageHasNoUpsert(c, Components(q.clauses, Order, c.Engine()) != [], LimitOf(c, q.clauses), OffsetOf(c, q.clauses));
    UpsertIsMark();
    hide Built, NamedJoins, NamedCombines, Components, LimitOf, OffsetOf, HeadSection, TableSection, ConditionSection, Emit.Listed,
      W.Ordering, LimitSection, EmitClauses, Chosen, Joined, Free, Openers, Marks, Upsert, JoinsEnd;
    var s := SectionTexts(c, env, q);
    FreeWithin(s.joins, Upsert, Openers);
    FreeCat(s.page, s.combined, Upsert);
    FreeCat(s.order, s.page + s.combined, Upsert);
    FreeCat(s.having, s.order + (s.page + s.combined), Upsert);
    FreeCat(s.group, s.having + (s.order + (s.page + s.combined)), Upsert);
    FreeCat(s.where, s.group + (s.having + (s.order + (s.page + s.combined))), Upsert);
    FreeCat(s.joins, s.where + (s.group + (s.having + (s.order + (s.page + s.combined)))), Upsert);
    FreeCat(s.from, s.joins + (s.where + (s.group + (s.having + (s.order + (s.page + s.combined))))), Upsert);
    FreeCat(s.head, s.from + (s.joins + (s.where + (s.group + (s.having + (s.order + (s.page + s.combined)))))), Upsert);
  }

  lemma {:induction false} HeadHasNoUpsert(c: Compiler, env: Env, q: Query)
    requires Built(q.clauses) && c.dialect.MySQL?
    ensures Free(HeadSection(c, q, EmitClauses(c, env, Chosen(c, q.clauses, Select))).sql, Upsert)
  {
    var columns := EmitClauses(c, env, Chosen(c, q.clauses, Select));
    HeadIs(c, q, columns);
    W.HeadRestIsSafe(c, env, q, [Sym("FROM")]);
    CalmHasNoUpsert(HeadRest(c, q, columns).sql);
    W.StartIs(c, q);
    assert TopSection(c, LimitOf(c, q.clauses), OffsetOf(c, q.clauses)) == Nothing;
    UpsertTexts();
    hide HeadSection, HeadRest, Start, TopSection, EmitClauses, LimitOf, OffsetOf, Calm, Built, Quiet, W.SafeHead, Chosen, Upsert;
    assert [] + HeadRest(c, q, columns).sql == HeadRest(c, q, columns).sql;
    assert Free(Start(c, q), Upsert);
    FreeCat(Start(c, q), HeadRest(c, q, columns).sql, Upsert);
  }

  lemma {:induction false} SectionsHaveNoUpsert(c: Compiler, env: Env, q: Query)
    ensures var s := SectionTexts(c, env, q);
      Free(s.from, Upsert) && Free(s.where, Upsert) && Free(s.group, Upsert) && Free(s.having, Upsert) && Free(s.order, Upsert)
  {
    hide HeadSection, Emit.Listed, LimitSection, EmitClauses, Chosen, Joined, Upsert, ConditionSection, TableSection, W.Ordering,
      LimitOf, OffsetOf, Components;
    ListHasNoUpsert(c, env, q.clauses, Where, "WHERE");
    ListHasNoUpsert(c, env, q.clauses, Having, "HAVING");
    FromHasNoUpsert(c, env, q.clauses);
    GroupHasNoUpsert(c, env, q.clauses);
    OrderHasNoUpsert(c, q.clauses);
  }

  lemma {:induction false} ListHasNoUpsert(c: Compiler, env: Env, cs: seq<Clause>, of: Component, keyword: string)
    requires (of == Where && keyword == "WHERE") || (of == Having && keyword == "HAVING")
    ensures Free(ConditionSection(keyword, Chosen(c, cs, of), EmitClauses(c, env, Chosen(c, cs, of))).sql, Upsert)
  {
    var list := Chosen(c, cs, of);
    W.SectionsCalm(c, env, cs, of);
    UpsertTexts();
    hide EmitClauses, Chosen, Connect, Calm, Upsert;
    CalmConnect(list, EmitClauses(c, env, list), false);
    CalmHasNoUpsert(Connect(list, EmitClauses(c, env, list), false).sql);
  }

  lemma {:induction false} FromHasNoUpsert(c: Compiler, env: Env, cs: seq<Clause>)
    ensures Free([Sym("FROM")] + TableSection(EmitClauses(c, env, Chosen(c, cs, Ast.From))).sql, Upsert)
  {
    var parts := EmitClauses(c, env, Chosen(c, cs, Ast.From));
    W.SectionsCalm(c, env, cs, Ast.From);
    UpsertTexts();
    hide EmitClauses, Chosen, Calm, Upsert;
    if parts != [] { CalmHasNoUpsert(parts[0].sql); }
  }

  lemma {:induction false} GroupHasNoUpsert(c: Compiler, env: Env, cs: seq<Clause>)
    ensures Free(Emit.Listed("GROUP BY", EmitClauses(c, env, Chosen(c, cs, Group)), ",").sql, Upsert)
  {
    var parts := EmitClauses(c, env, Chosen(c, cs, Group));
    W.SectionsCalm(c, env, cs, Group);
    SmallIsNoWord(",");
    UpsertTexts();
    hide EmitClauses, Chosen, Calm, Upsert, Joined, Marks;
    CalmJoined(parts, ",");
    CalmHasNoUpsert(Joined(parts, ",").sql);
  }

  lemma {:induction false} OrderHasNoUpsert(c: Compiler, cs: seq<Clause>)
    ensures Free(W.Ordering(c, cs), Upsert)
  {
    CalmOrders(c, Components(cs, Order, c.Engine()));
    UpsertTexts();
    hide OrderParts, Components, Calm, Joined, Upsert;
    CalmHasNoUpsert(Joined(OrderParts(c, Components(cs, Order, c.Engine())), ",").sql);
  }

  lemma {:induction false} PageHasNoUpsert(c: Compiler, ordered: bool, limit: int, offset: int)
    requires c.dialect.MySQL?
    ensures Free(LimitSection(c, ordered, limit, offset).sql, Upsert)
  {
    UpsertTexts();
    hide Upsert;
  }

  // ----- reading it ---------------------------------------------------------------------------------

  /** The columns updated on a conflict, each with the inserted column it takes. */
  function ReadUpsert(ts: seq<Token>): Option<seq<(string, string)>>
    decreases |ts|
  {
    if ts == [] then Some([])
    else if |ts| >= 4 && ts[0].Ident? && ts[1] == Sym("= VALUES(") && ts[2].Ident? && ts[3] == Sym(")") then
      match ReadUpsert(ts[4..]) case None => None case Some(rest) => Some([(ts[0].name, ts[2].name)] + rest)
    else None
  }

  /** Every column with itself. */
  function Twins(columns: seq<string>): seq<(string, string)> {
    if columns == [] then [] else [(columns[0], columns[0])] + Twins(columns[1..])
  }

  /** On a conflict every listed column takes its inserted value. */
  lemma {:induction false} UpsertReads(columns: seq<string>)
    ensures ReadUpsert(Assignments(columns)) == Some(Twins(columns))
  {
    if columns != [] {
      UpsertReads(columns[1..]);
      assert Assignments(columns)[4..] == Assignments(columns[1..]);
    }
  }
}
