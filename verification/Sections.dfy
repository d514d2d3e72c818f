/** A reader of printed SELECTs: it cuts the text at the keywords that open the
    sections and joins, and finds what the clauses of each section printed. */
module Sections {
  import opened Ast
  import opened Dialects
  import opened Emit
  import opened Keywords
  import opened Placeholders
  import opened PagedQueries
  import P = Paging
  import Pages
  import S = Strings
  import W = Windows

  // ----- the reader -----------------------------------------------------------------------

  const PageEnd: set<string> := Combinators
  const OrderEnd: set<string> := PageWords + PageEnd
  const HavingEnd: set<string> := {"ORDER BY"} + OrderEnd
  const GroupEnd: set<string> := {"HAVING"} + HavingEnd
  const WhereEnd: set<string> := {"GROUP BY"} + GroupEnd
  const JoinsEnd: set<string> := {"WHERE"} + WhereEnd
  const FromEnd: set<string> := JoinKinds + JoinsEnd

  datatype Sections = Sections(
    head: seq<Token>, from: seq<Token>, joins: seq<Token>, where: seq<Token>, group: seq<Token>,
    having: seq<Token>, order: seq<Token>, page: seq<Token>, combined: seq<Token>)

  function ReadSections(sql: seq<Token>): Sections {
    var from := Keywords.From(sql, {"FROM"});
    var joins := Keywords.From(from, FromEnd);
    var where := Keywords.From(joins, JoinsEnd);
    var group := Keywords.From(where, WhereEnd);
    var having := Keywords.From(group, GroupEnd);
    var order := Keywords.From(having, HavingEnd);
    var page := Keywords.From(order, OrderEnd);
    Sections(UpTo(sql, {"FROM"}), UpTo(from, FromEnd), UpTo(joins, JoinsEnd), UpTo(where, WhereEnd), UpTo(group, GroupEnd),
             UpTo(having, HavingEnd), UpTo(order, OrderEnd), UpTo(page, PageEnd), Keywords.From(page, PageEnd))
  }

  /** The SELECT inside the wrapper of a legacy page. */
  function Unwrapped(sql: seq<Token>): seq<Token> {
    if |sql| >= 2 && (P.OpensPlain(sql[0]) || P.OpensNumbered(sql[0])) && sql[1].Inner? then sql[1].tokens else sql
  }

  // ----- reading back ---------------------------------------------------------------------

  function Whole(s: Sections): seq<Token> {
    s.head + (s.from + (s.joins + (s.where + (s.group + (s.having + (s.order + (s.page + s.combined)))))))
  }

  predicate Starts(ts: seq<Token>, words: set<string>) { ts == [] || Opens(ts[0], words) }

  /** Every section opens with its own words and holds none of those after it. */
  predicate Separated(s: Sections) {
    && Free(s.head, {"FROM"})
    && s.from != [] && Opens(s.from[0], {"FROM"}) && Free(s.from, FromEnd)
    && Starts(s.joins, JoinKinds) && Free(s.joins, JoinsEnd)
    && Starts(s.where, {"WHERE"}) && Free(s.where, WhereEnd)
    && Starts(s.group, {"GROUP BY"}) && Free(s.group, GroupEnd)
    && Starts(s.having, {"HAVING"}) && Free(s.having, HavingEnd)
    && Starts(s.order, {"ORDER BY"}) && Free(s.order, OrderEnd)
    && Starts(s.page, PageWords) && Free(s.page, PageEnd)
    && Starts(s.combined, Combinators)
  }

  lemma {:induction false} StartsThen(a: seq<Token>, b: seq<Token>, words: set<string>, more: set<string>)
    requires Starts(a, words) && Starts(b, more)
    ensures Starts(a + b, words + more)
  {
    if a == [] { assert a + b == b; } else { assert (a + b)[0] == a[0]; }
  }

  lemma {:induction false} SectionsRead(s: Sections)
    requires Separated(s)
    ensures ReadSections(Whole(s)) == s
  {
    hide Free, UpTo, Keywords.From, Starts, PageWords, Combinators, JoinKinds;
    var page := s.page + s.combined;
    var order := s.order + page;
    var having := s.having + order;
    var group := s.group + having;
    var where := s.where + group;
    var joins := s.joins + where;
    var from := s.from + joins;
    StartsThen(s.page, s.combined, PageWords, Combinators);
    StartsThen(s.order, page, {"ORDER BY"}, OrderEnd);
    StartsThen(s.having, order, {"HAVING"}, HavingEnd);
    StartsThen(s.group, having, {"GROUP BY"}, GroupEnd);
    StartsThen(s.where, group, {"WHERE"}, WhereEnd);
    StartsThen(s.joins, where, JoinKinds, JoinsEnd);
    Cut(s.page, s.combined, PageEnd);
    Cut(s.order, page, OrderEnd);
    Cut(s.having, order, HavingEnd);
    Cut(s.group, having, GroupEnd);
    Cut(s.where, group, WhereEnd);
    Cut(s.joins, where, JoinsEnd);
    Cut(s.from, joins, FromEnd);
    assert from[0] == s.from[0];
    HeadCut(s.head, from);
  }

  lemma {:induction false} Cut(a: seq<Token>, b: seq<Token>, words: set<string>)
    requires Free(a, words) && Starts(b, words)
    ensures UpTo(a + b, words) == a && Keywords.From(a + b, words) == b
  {
    hide Free, UpTo, Keywords.From;
    SplitsAt(a, b, words);
  }

  lemma {:induction false} HeadCut(head: seq<Token>, from: seq<Token>)
    requires Free(head, {"FROM"}) && from != [] && Opens(from[0], {"FROM"})
    ensures UpTo(head + from, {"FROM"}) == head && Keywords.From(head + from, {"FROM"}) == from
  {
    hide Free, UpTo, Keywords.From;
    SplitsAt(head, from, {"FROM"});
  }

  // ----- what the clauses print -------------------------------------------------------------

  /** Combined queries are joined by the operations of SQL; raw ones are not read. */
  predicate NamedCombines(cs: seq<Clause>) {
    forall cl <- cs :: cl.body.CombineQuery? && S.Upper(cl.body.operation) in Combinators
  }

  /** What the clauses of every section print. */
  function SectionTexts(c: Compiler, env: Env, q: Query): Sections {
    var wheres, havings := Chosen(c, q.clauses, Where), Chosen(c, q.clauses, Having);
    Sections(
      HeadSection(c, q, EmitClauses(c, env, Chosen(c, q.clauses, Select))).sql,
      [Sym("FROM")] + TableSection(EmitClauses(c, env, Chosen(c, q.clauses, Ast.From))).sql,
      Joined(EmitClauses(c, env, Chosen(c, q.clauses, Joins)), "").sql,
      ConditionSection("WHERE", wheres, EmitClauses(c, env, wheres)).sql,
      Listed("GROUP BY", EmitClauses(c, env, Chosen(c, q.clauses, Group)), ",").sql,
      ConditionSection("HAVING", havings, EmitClauses(c, env, havings)).sql,
      W.Ordering(c, q.clauses),
      LimitSection(c, Components(q.clauses, Order, c.Engine()) != [], LimitOf(c, q.clauses), OffsetOf(c, q.clauses)).sql,
      Joined(EmitClauses(c, env, Chosen(c, q.clauses, Combine)), "").sql)
  }

  lemma {:induction false} AssembleIsWhole(c: Compiler, env: Env, q: Query)
    ensures Assemble(c, q, EmitParts(c, env, q.clauses)).sql == Whole(SectionTexts(c, env, q))
  {
    hide HeadSection, EmitClauses, TableSection, Joined, ConditionSection, Listed, OrdersOut, OrderParts, Chosen, LimitSection,
      LimitOf, OffsetOf, Components;
  }

  lemma {:induction false} PrintedIsSeparated(c: Compiler, env: Env, q: Query)
    requires Built(q.clauses) && NamedJoins(Components(q.clauses, Joins, c.Engine()))
    requires NamedCombines(Components(q.clauses, Combine, c.Engine()))
    ensures Separated(SectionTexts(c, env, q))
  {
    hide HeadSection, EmitClauses, TableSection, Joined, ConditionSection, Emit.Listed, OrdersOut, OrderParts, LimitSection,
      LimitOf, OffsetOf, Free, Starts, W.Ordering, Chosen, Components, NamedJoins, NamedCombines, Built,
      FromEnd, JoinsEnd, WhereEnd, GroupEnd, HavingEnd, OrderEnd, PageEnd;
    TableOpens(c, env, q.clauses);
    HeadIsFree(c, env, q);
    TableIsFree(c, env, q.clauses);
    JoinsAreFree(c, env, q.clauses);
    ConditionsAreFree(c, env, q.clauses, Where, "WHERE");
    ConditionsAreFree(c, env, q.clauses, Having, "HAVING");
    GroupsAreFree(c, env, q.clauses);
    OrdersAreFree(c, q.clauses);
    PageIsFree(c, Components(q.clauses, Order, c.Engine()) != [], LimitOf(c, q.clauses), OffsetOf(c, q.clauses));
    ChosenIs(c, q.clauses, Combine);
    CombinesStart(c, env, Chosen(c, q.clauses, Combine));
  }

  // ----- the words of one section are not those after it ------------------------------------

  lemma {:induction false} EndsAreMarks()
    ensures FromEnd <= Marks && JoinsEnd <= Openers && WhereEnd <= Openers && GroupEnd <= Openers
    ensures HavingEnd <= Openers && OrderEnd <= Openers && PageEnd <= Openers
  {
  }

  lemma {:induction false} OwnWords()
    ensures "WHERE" !in WhereEnd && "GROUP BY" !in GroupEnd && "HAVING" !in HavingEnd && "ORDER BY" !in OrderEnd
  {
  }

  lemma {:induction false} FromIsNoEnd()
    ensures "FROM" !in FromEnd
  {
  }

  lemma {:induction false} BlankIsNoEnd()
    ensures "" !in Openers && "," !in Openers
  {
    hide Marks;
    SmallIsNoWord("");
    SmallIsNoWord(",");
    OpenersMark();
  }

  lemma {:induction false} OpenersMark()
    ensures Openers <= Marks && "FROM" in Openers
  {
  }

  lemma {:induction false} CalmIsFree(ts: seq<Token>)
    requires Calm(ts)
    ensures Free(ts, {"FROM"}) && Free(ts, FromEnd) && Free(ts, WhereEnd) && Free(ts, GroupEnd) && Free(ts, HavingEnd) && Free(ts, OrderEnd)
  {
    EndsAreMarks();
    OpenersMark();
    hide Marks, Openers, FromEnd, JoinsEnd, WhereEnd, GroupEnd, HavingEnd, OrderEnd, PageEnd, Free;
    FreeWithin(ts, {"FROM"}, Marks);
    FreeWithin(ts, FromEnd, Marks);
    FreeWithin(ts, WhereEnd, Marks);
    FreeWithin(ts, GroupEnd, Marks);
    FreeWithin(ts, HavingEnd, Marks);
    FreeWithin(ts, OrderEnd, Marks);
  }

  lemma {:induction false} HeadIsFree(c: Compiler, env: Env, q: Query)
    requires Built(q.clauses)
    ensures Free(HeadSection(c, q, EmitClauses(c, env, Chosen(c, q.clauses, Select))).sql, {"FROM"})
  {
    var columns := EmitClauses(c, env, Chosen(c, q.clauses, Select));
    HeadIs(c, q, columns);
    W.HeadRestIsSafe(c, env, q, [Sym("FROM")]);
    CalmIsFree(HeadRest(c, q, columns).sql);
    W.StartIs(c, q);
    W.TopAndTail(c, false, LimitOf(c, q.clauses), OffsetOf(c, q.clauses));
    hide HeadSection, HeadRest, Start, TopSection, LimitSection, EmitClauses, LimitOf, OffsetOf, Calm, Built, Quiet, W.SafeHead,
      FromEnd, WhereEnd, GroupEnd, HavingEnd, OrderEnd, PageWords;
    StartAndTop(Start(c, q), TopSection(c, LimitOf(c, q.clauses), OffsetOf(c, q.clauses)).sql);
    FreeCat(TopSection(c, LimitOf(c, q.clauses), OffsetOf(c, q.clauses)).sql, HeadRest(c, q, columns).sql, {"FROM"});
    FreeCat(Start(c, q), TopSection(c, LimitOf(c, q.clauses), OffsetOf(c, q.clauses)).sql + HeadRest(c, q, columns).sql, {"FROM"});
  }

  lemma {:induction false} StartAndTop(start: seq<Token>, top: seq<Token>)
    requires W.IsStart(start) && W.IsTop(top)
    ensures Free(start, {"FROM"}) && Free(top, {"FROM"})
  {
    assert "TOP ("[0] != "FROM"[0] && "SELECT"[0] != "FROM"[0] && "DISTINCT"[0] != "FROM"[0] && ")"[0] != "FROM"[0];
  }

  lemma {:induction false} TableIsFree(c: Compiler, env: Env, cs: seq<Clause>)
    ensures Free([Sym("FROM")] + TableSection(EmitClauses(c, env, Chosen(c, cs, Ast.From))).sql, FromEnd)
  {
    var parts := EmitClauses(c, env, Chosen(c, cs, Ast.From));
    W.SectionsCalm(c, env, cs, Ast.From);
    FromIsNoEnd();
    hide EmitClauses, Chosen, Calm, FromEnd;
    if parts != [] { CalmIsFree(parts[0].sql); }
    FreeCat([Sym("FROM")], TableSection(parts).sql, FromEnd);
  }

  lemma {:induction false} TableOpens(c: Compiler, env: Env, cs: seq<Clause>)
    ensures var sql := [Sym("FROM")] + TableSection(EmitClauses(c, env, Chosen(c, cs, Ast.From))).sql;
      sql != [] && Opens(sql[0], {"FROM"})
  {
  }

  lemma {:induction false} ConditionsAreFree(c: Compiler, env: Env, cs: seq<Clause>, of: Component, keyword: string)
    requires (of == Where && keyword == "WHERE") || (of == Having && keyword == "HAVING")
    ensures var list := Chosen(c, cs, of); var sql := ConditionSection(keyword, list, EmitClauses(c, env, list)).sql;
      && Starts(sql, {keyword})
      && Free(sql, if of == Where then WhereEnd else HavingEnd)
  {
    var list := Chosen(c, cs, of);
    W.SectionsCalm(c, env, cs, of);
    OwnWords();
    hide EmitClauses, Chosen, Connect, Calm, WhereEnd, HavingEnd, GroupEnd, OrderEnd;
    CalmConnect(list, EmitClauses(c, env, list), false);
    CalmIsFree(Connect(list, EmitClauses(c, env, list), false).sql);
    FreeCat([Sym(keyword)], Connect(list, EmitClauses(c, env, list), false).sql, if of == Where then WhereEnd else HavingEnd);
  }

  lemma {:induction false} GroupsAreFree(c: Compiler, env: Env, cs: seq<Clause>)
    ensures var sql := Emit.Listed("GROUP BY", EmitClauses(c, env, Chosen(c, cs, Group)), ",").sql;
      Starts(sql, {"GROUP BY"}) && Free(sql, GroupEnd)
  {
    var parts := EmitClauses(c, env, Chosen(c, cs, Group));
    W.SectionsCalm(c, env, cs, Group);
    OwnWords();
    SmallIsNoWord(",");
    hide EmitClauses, Chosen, Calm, WhereEnd, HavingEnd, GroupEnd, OrderEnd, Joined, Marks;
    CalmJoined(parts, ",");
    CalmIsFree(Joined(parts, ",").sql);
    FreeCat([Sym("GROUP BY")], Joined(parts, ",").sql, GroupEnd);
  }

  lemma {:induction false} OrdersAreFree(c: Compiler, cs: seq<Clause>)
    ensures Starts(W.Ordering(c, cs), {"ORDER BY"}) && Free(W.Ordering(c, cs), OrderEnd)
  {
    var parts := OrderParts(c, Components(cs, Order, c.Engine()));
    CalmOrders(c, Components(cs, Order, c.Engine()));
    OwnWords();
    hide OrderParts, Components, Calm, WhereEnd, HavingEnd, GroupEnd, OrderEnd, Joined;
    CalmIsFree(Joined(parts, ",").sql);
    FreeCat([Sym("ORDER BY")], Joined(parts, ",").sql, OrderEnd);
  }

  lemma {:induction false} PageIsFree(c: Compiler, ordered: bool, limit: int, offset: int)
    ensures var sql := LimitSection(c, ordered, limit, offset).sql; Starts(sql, PageWords) && Free(sql, PageEnd)
  {
    W.TopAndTail(c, ordered, limit, offset);
    PageTexts();
    StandardIsFree(limit, offset);
    FetchIsFree(ordered, "ORDER BY (SELECT 0)", limit, offset, limit <= 0);
    FetchIsFree(ordered, "ORDER BY (SELECT 0 FROM DUAL)", limit, offset, limit == 0);
    hide PageWords, PageEnd, Combinators, StandardLimit, FetchForm;
  }

  lemma {:induction false} StandardIsFree(limit: int, offset: int)
    ensures Free(StandardLimit(limit, offset).sql, PageEnd)
  {
    PageTexts();
    hide PageEnd, Combinators;
  }

  lemma {:induction false} FetchIsFree(ordered: bool, filler: string, limit: int, offset: int, bare: bool)
    requires filler !in PageEnd
    ensures Free(FetchForm(ordered, filler, limit, offset, bare).sql, PageEnd)
  {
    PageTexts();
    hide PageEnd, Combinators;
  }

  lemma {:induction false} PageTexts()
    ensures "LIMIT" !in PageEnd && "OFFSET" !in PageEnd && "LIMIT 18446744073709551615 OFFSET" !in PageEnd && "LIMIT -1 OFFSET" !in PageEnd
    ensures "ORDER BY (SELECT 0)" !in PageEnd && "ORDER BY (SELECT 0 FROM DUAL)" !in PageEnd
    ensures "ROWS" !in PageEnd && "FETCH NEXT" !in PageEnd && "ROWS ONLY" !in PageEnd
  {
  }

  lemma {:induction false} ChosenIs(c: Compiler, cs: seq<Clause>, of: Component)
    requires of != Ast.From && of != Select
    ensures Chosen(c, cs, of) == Components(cs, of, c.Engine())
  {
  }

  lemma {:induction false} JoinsAre(c: Compiler, cs: seq<Clause>)
    requires Built(cs) && NamedJoins(Components(cs, Joins, c.Engine()))
    ensures var list := Chosen(c, cs, Joins);
      list == Components(cs, Joins, c.Engine()) && forall cl <- list :: cl.body.Join? && cl.body.kind in JoinKinds && BuiltClause(cl)
  {
    ChosenIs(c, cs, Joins);
    hide JoinKinds, Chosen;
    forall cl | cl in Components(cs, Joins, c.Engine()) ensures cl.body.Join? && BuiltClause(cl) {
      var i :| 0 <= i < |cs| && cs[i] == cl;
      assert BuiltClause(cs[i]);
      OnlyJoins(cl);
    }
  }

  lemma {:induction false} OnlyJoins(cl: Clause)
    requires BuiltClause(cl) && Tag(cl) == Joins
    ensures cl.body.Join?
  {
  }

  lemma {:induction false} JoinsAreFree(c: Compiler, env: Env, cs: seq<Clause>)
    requires Built(cs) && NamedJoins(Components(cs, Joins, c.Engine()))
    ensures var sql := Joined(EmitClauses(c, env, Chosen(c, cs, Joins)), "").sql;
      Starts(sql, JoinKinds) && Free(sql, Openers) && Free(sql, JoinsEnd)
  {
    JoinsAre(c, cs);
    EndsAreMarks();
    hide Chosen, Components, Joined, JoinsEnd, EmitClauses, Built, JoinKinds, Openers, FromEnd, WhereEnd, GroupEnd, HavingEnd, OrderEnd,
      PageEnd, Free;
    JoinListFree(c, env, Chosen(c, cs, Joins));
    FreeWithin(Joined(EmitClauses(c, env, Chosen(c, cs, Joins)), "").sql, JoinsEnd, Openers);
  }

  lemma {:induction false} JoinListFree(c: Compiler, env: Env, joins: seq<Clause>)
    requires forall cl <- joins :: cl.body.Join? && cl.body.kind in JoinKinds
    ensures var sql := Joined(EmitClauses(c, env, joins), "").sql; Starts(sql, JoinKinds) && Free(sql, Openers)
  {
    BlankIsNoEnd();
    hide JoinKinds, Openers, JoinOut, EmitClause;
    if joins != [] {
      JoinListFree(c, env, joins[1..]);
      var parts := EmitClauses(c, env, joins);
      OneJoinFree(c, env, joins[0]);
      hide Free;
      assert parts[0] == EmitClause(c, env, joins[0]) && parts[1..] == EmitClauses(c, env, joins[1..]);
      if |parts| > 1 {
        var rest := [Sym("")] + Joined(parts[1..], "").sql;
        assert Joined(parts, "").sql == parts[0].sql + rest;
        BlankFree();
        FreeCat([Sym("")], Joined(parts[1..], "").sql, Openers);
        FreeCat(parts[0].sql, rest, Openers);
      }
    }
  }

  lemma {:induction false} BlankFree()
    ensures Free([Sym("")], Openers)
  {
    BlankIsNoEnd();
    hide Openers;
  }

  /** What a join prints. */
  function JoinText(c: Compiler, env: Env, kind: string, cs: seq<Clause>): Out {
    JoinOut(kind, EmitClauses(c, env, Chosen(c, cs, Ast.From)), Chosen(c, cs, Where), EmitClauses(c, env, Chosen(c, cs, Where)))
  }

  lemma {:induction false} JoinPrints(c: Compiler, env: Env, cl: Clause)
    requires cl.body.Join?
    ensures EmitClause(c, env, cl) == JoinText(c, env, cl.body.kind, cl.body.clauses)
  {
    hide JoinOut, EmitClauses, Chosen;
  }

  lemma {:induction false} OneJoinFree(c: Compiler, env: Env, cl: Clause)
    requires cl.body.Join? && cl.body.kind in JoinKinds
    ensures var sql := EmitClause(c, env, cl).sql; sql != [] && Opens(sql[0], JoinKinds) && Free(sql, Openers)
  {
    var Join(kind, cs) := cl.body;
    JoinPrints(c, env, cl);
    JoinFree(c, env, kind, cs);
    hide EmitClause, JoinKinds, Openers, Free, EmitClauses, Chosen, ConditionSection, TableSection;
  }

  lemma {:induction false} CombinesStart(c: Compiler, env: Env, cs: seq<Clause>)
    requires NamedCombines(cs)
    ensures Starts(Joined(EmitClauses(c, env, cs), "").sql, Combinators)
  {
    hide EmitSelect, Combinators, S.Upper;
    if cs != [] {
      var parts := EmitClauses(c, env, cs);
      assert parts[0] == EmitClause(c, env, cs[0]);
      if |parts| > 1 { assert Joined(parts, "").sql == parts[0].sql + ([Sym("")] + Joined(parts[1..], "").sql); }
    }
  }

  // ----- whole queries ------------------------------------------------------------------------

  /** The clauses that are printed: those of the numbered clone in the form that
      recompiles one. */
  function Read(c: Compiler, q: Query): Query { if Recompiled(c, q) then RowNumbered(c, q) else q }

  lemma {:induction false} StartsWithSelect(c: Compiler, env: Env, q: Query)
    ensures var sql := Whole(SectionTexts(c, env, q)); sql != [] && sql[0] == Sym("SELECT")
  {
    hide EmitClauses, TableSection, Joined, ConditionSection, Emit.Listed, OrdersOut, OrderParts, LimitSection, LimitOf, OffsetOf,
      Chosen, Components, One, TopSection, AliasText, Whole;
    var p := SectionTexts(c, env, q);
    assert p.head != [] && p.head[0] == Sym("SELECT");
    HeadFirst(p);
  }

  lemma {:induction false} HeadFirst(s: Sections)
    requires s.head != []
    ensures Whole(s) != [] && Whole(s)[0] == s.head[0]
  {
  }

  lemma {:induction false} SelectIsNoWrap(sql: seq<Token>)
    requires sql != [] && sql[0] == Sym("SELECT")
    ensures Unwrapped(sql) == sql
  {
    assert |"SELECT"| == 6 && |"SELECT * FROM ("| == 15;
  }

  lemma {:induction false} WrapReads(body: Out, limit: int, offset: int)
    requires body.sql != [] && body.sql[0] == Sym("SELECT")
    ensures Unwrapped(RownumWrap(body, limit, offset).sql) == body.sql
  {
    SelectIsNoWrap(body.sql);
  }

  lemma {:induction false} NumberWrapReads(inner: Out, limit: int, offset: int)
    ensures Unwrapped(RowNumberWrap(inner, limit, offset).sql) == inner.sql
  {
  }

  lemma {:induction false} AssembledReads(c: Compiler, outer: Env, q: Query)
    requires Built(q.clauses) && NamedJoins(Components(q.clauses, Joins, c.Engine()))
    requires NamedCombines(Components(q.clauses, Combine, c.Engine())) && !Recompiled(c, q)
    ensures ReadSections(Unwrapped(EmitQuery(c, outer, q).sql)) == SectionTexts(c, outer + q.variables, q)
  {
    var env := outer + q.variables;
    EmitAssembled(c, outer, q);
    AssembleIsWhole(c, env, q);
    PrintedIsSeparated(c, env, q);
    SectionsRead(SectionTexts(c, env, q));
    StartsWithSelect(c, env, q);
    hide EmitQuery, SectionTexts, Whole, Assemble, EmitParts, ReadSections, Separated, Unwrapped, RownumWrap, LimitOf, OffsetOf, Built,
      NamedJoins, NamedCombines, Components;
    if c.dialect == Oracle(true) {
      WrapReads(Assemble(c, q, EmitParts(c, env, q.clauses)), LimitOf(c, q.clauses), OffsetOf(c, q.clauses));
    } else {
      SelectIsNoWrap(Whole(SectionTexts(c, env, q)));
    }
  }

  /** For every dialect and every built query: the printed text, cut at its keywords,
      is the text of the clauses section by section. */
  lemma {:induction false} SelectReads(c: Compiler, outer: Env, q: Query)
    requires Built(q.clauses) && NamedJoins(Components(q.clauses, Joins, c.Engine()))
    requires NamedCombines(Components(q.clauses, Combine, c.Engine()))
    ensures ReadSections(Unwrapped(EmitQuery(c, outer, q).sql)) == SectionTexts(c, outer + q.variables, Read(c, q))
  {
    hide SectionTexts, Built, NamedJoins, NamedCombines, ReadSections, Unwrapped, EmitQuery, RowNumbered, LimitOf, OffsetOf, Components,
      RowNumberWrap;
    if Recompiled(c, q) {
      var env := outer + q.variables;
      assert env + q.variables == env;
      var n := RowNumbered(c, q);
      Pages.CloneIsBuilt(c, q);
      Pages.CloneSections(c, q, Combine);
      NumberedVariables(c, q);
      CloneIsPlain(c, q);
      AssembledReads(c, env, n);
      EmitRecompiled(c, outer, q);
      NumberWrapReads(EmitQuery(c, env, n), LimitOf(c, q.clauses), OffsetOf(c, q.clauses));
      assert Unwrapped(EmitQuery(c, env, n).sql) == EmitQuery(c, env, n).sql by {
        EmitAssembled(c, env, n);
        AssembleIsWhole(c, env, n);
        StartsWithSelect(c, env, n);
        SelectIsNoWrap(Whole(SectionTexts(c, env, n)));
      }
    } else {
      AssembledReads(c, outer, q);
    }
  }

  lemma {:induction false} CloneIsPlain(c: Compiler, q: Query)
    ensures !Recompiled(c, RowNumbered(c, q))
  {
    W.NumberedSelf(c, q);
    NoPages(c, RowNumbered(c, q).clauses);
    hide RowNumbered, LimitOf, Without;
  }

  /** The clone has the sections of the query itself, from FROM to HAVING. */
  lemma {:induction false} ReadSame(c: Compiler, q: Query, of: Component)
    requires of in {Ast.From, Joins, Where, Group, Having, Combine}
    ensures Chosen(c, Read(c, q).clauses, of) == Chosen(c, q.clauses, of)
    ensures Components(Read(c, q).clauses, of, c.Engine()) == Components(q.clauses, of, c.Engine())
  {
    if Recompiled(c, q) {
      Pages.CloneSections(c, q, of);
      hide RowNumbered, Components, Recompiled;
      SameChosen(c, Read(c, q).clauses, q.clauses, of);
    }
  }

  lemma {:induction false} SameChosen(c: Compiler, a: seq<Clause>, b: seq<Clause>, of: Component)
    requires of != Select && Components(a, of, c.Engine()) == Components(b, of, c.Engine())
    ensures Chosen(c, a, of) == Chosen(c, b, of)
  {
    hide Components, FirstScoped;
  }

  /** How every SELECT begins, in any dialect: like no list of columns or rows. */
  predicate OpensSelect(ts: seq<Token>) {
    ts != [] && (ts[0].Remark? || (ts[0].Sym? && ts[0].text != "(" && ts[0].text != "VALUES"))
  }

  lemma {:induction false} SelectOpens(c: Compiler, outer: Env, q: Query)
    ensures OpensSelect(EmitSelect(c, outer, q).sql)
  {
    hide EmitQuery;
    QueryOpens(c, outer, q);
    assert |"VALUES"| == 6 && "SELECT"[0] != "VALUES"[0];
  }

  /** How it begins without its comment. */
  predicate BeginsSelect(ts: seq<Token>) { ts != [] && ts[0].Sym? && (ts[0].text == "SELECT" || |ts[0].text| > 6) }

  lemma {:induction false} QueryOpens(c: Compiler, outer: Env, q: Query)
    ensures BeginsSelect(EmitQuery(c, outer, q).sql)
  {
    hide RowNumbered, LimitOf, OffsetOf, Assemble, EmitParts, Whole, SectionTexts, RownumWrap, RowNumberWrap, BeginsSelect;
    if Recompiled(c, q) {
      EmitRecompiled(c, outer, q);
      hide EmitQuery;
      NumberWrapOpens(EmitQuery(c, outer + q.variables, RowNumbered(c, q)), LimitOf(c, q.clauses), OffsetOf(c, q.clauses));
    } else {
      EmitAssembled(c, outer, q);
      AssembleIsWhole(c, outer + q.variables, q);
      StartsWithSelect(c, outer + q.variables, q);
      hide EmitQuery;
      var body := Assemble(c, q, EmitParts(c, outer + q.variables, q.clauses));
      WrapOpens(body, 0, 0);
      WrapOpens(body, LimitOf(c, q.clauses), OffsetOf(c, q.clauses));
      RownumOfNothing(body);
    }
  }

  lemma {:induction false} NumberWrapOpens(inner: Out, limit: int, offset: int)
    ensures BeginsSelect(RowNumberWrap(inner, limit, offset).sql)
  {
    assert |"SELECT * FROM ("| == 15;
  }

  lemma {:induction false} WrapOpens(body: Out, limit: int, offset: int)
    requires body.sql != [] && body.sql[0] == Sym("SELECT")
    ensures BeginsSelect(RownumWrap(body, limit, offset).sql)
  {
    assert |"SELECT * FROM ("| == 15;
    assert |"SELECT * FROM (SELECT \"results_wrapper\".*, ROWNUM \"row_num\" FROM ("| > 6;
  }
}
