/** Pagination of whole queries, read back: the text that any dialect prints for a
    query with a limit and an offset denotes the window of the rows that the query
    without them returns. */
module Windows {
  import opened Ast
  import opened Dialects
  import opened Emit
  import opened Keywords
  import opened PagedQueries
  import opened Placeholders
  import P = Paging
  import S = Strings

  // ----- reading a paged SELECT ---------------------------------------------------------------

  /** A database, as far as it matters here: what a SELECT without pagination
      returns. */
  type Database<T> = seq<Token> -> seq<T>

  /** "*" is printed the same whether it is a column or the empty projection. */
  function Starred(ts: seq<Token>): (r: seq<Token>)
    ensures |r| == |ts|
    ensures forall i :: 0 <= i < |ts| ==> r[i] == if ts[i] == Ident("*") then Sym("*") else ts[i]
  {
    seq(|ts|, i requires 0 <= i < |ts| => if ts[i] == Ident("*") then Sym("*") else ts[i])
  }

  datatype Page = Page(plain: seq<Token>, top: seq<Token>, tail: seq<Token>)

  /** Splits a SELECT into its text without pagination, the fragment after SELECT or
      SELECT DISTINCT, and the pagination section: everything from the first keyword
      that opens one. */
  function ReadPage(sql: seq<Token>): Page {
    SplitTop(UpTo(sql, PageWords), Keywords.From(sql, PageWords))
  }

  function SplitTop(body: seq<Token>, tail: seq<Token>): Page {
    var start := if |body| >= 2 && body[1] == Sym("DISTINCT") then 2 else 1;
    if |body| >= start + 3 && P.OpensTop(body[start]) && P.Bound(body[start + 1]) && body[start + 2] == Sym(")") then
      Page(body[..start] + body[start + 3..], body[start..start + 3], tail)
    else Page(body, [], tail)
  }

  datatype NumberedSelect = NumberedSelect(distinct: bool, plain: seq<Token>)

  /** Reads a SELECT whose last column numbers the rows: the text that remains
      without the number, with the ordering of its OVER clause at the end. */
  function ReadNumbered(sql: seq<Token>): Option<NumberedSelect> {
    SplitNumbered(UpTo(sql, {"FROM"}), Keywords.From(sql, {"FROM"}))
  }

  function SplitNumbered(head: seq<Token>, body: seq<Token>): Option<NumberedSelect> {
    var start := if |head| >= 2 && head[1] == Sym("DISTINCT") then 2 else 1;
    if |head| >= start + 3 && head[0] == Sym("SELECT") && head[|head| - 2] == Sym(",") && head[|head| - 1].Inner? then
      match ReadNumber(head[|head| - 1].tokens)
      case None => None
      case Some(order) =>
        var columns := head[start..|head| - 2];
        Some(NumberedSelect(start == 2,
          [Sym("SELECT")] + columns + body + if order == [Sym("ORDER BY (SELECT 0)")] then [] else order))
    else None
  }

  /** The ordering of a row number. */
  function ReadNumber(number: seq<Token>): Option<seq<Token>> {
    if |number| >= 3 && number[0] == Sym("ROW_NUMBER() OVER (") && number[|number| - 2..] == [Sym(") AS"), Ident("row_num")] then
      Some(number[1..|number| - 2])
    else None
  }

  /** The rows a printed query returns: pagination as the dialect defines it on top
      of what the database returns for the rest.  Numbers are given before DISTINCT
      compares rows. */
  ghost function ReadRows<T>(c: Compiler, D: Database<T>, sql: seq<Token>): Option<seq<T>> {
    if c.dialect == Oracle(true) then
      if |sql| >= 2 && (P.OpensPlain(sql[0]) || P.OpensNumbered(sql[0])) && sql[1].Inner? then
        P.RownumRows(sql, D(Starred(sql[1].tokens)))
      else Some(D(Starred(sql)))
    else if c.dialect == SqlServer(true) && |sql| >= 2 && P.OpensPlain(sql[0]) && sql[1].Inner? then
      match ReadNumbered(sql[1].tokens)
      case None => None
      case Some(s) =>
        var rows := D(Starred(s.plain));
        P.RowNumberRows(sql, if s.distinct then P.Plain(P.Deduped(P.Numbers(rows, 1))) else rows)
    else
      var page := ReadPage(sql);
      match P.TopRows(page.top, D(Starred(page.plain)))
      case None => None
      case Some(rows) => P.TailRows(page.tail, rows)
  }

  // ----- the pieces do not contain each other's keywords ------------------------------------------

  predicate NoPage(ts: seq<Token>) { forall t <- ts :: !Opens(t, PageWords) }

  lemma {:induction false} QuietHasNoPage(ts: seq<Token>)
    requires Quiet(ts)
    ensures NoPage(ts) && forall t <- ts :: !Opens(t, {"FROM"})
  {
    forall t | t in ts ensures !Opens(t, PageWords) && !Opens(t, {"FROM"}) { assert !Opens(t, Words); }
  }

  lemma {:induction false} NoPageCat(a: seq<Token>, b: seq<Token>)
    requires NoPage(a) && NoPage(b)
    ensures NoPage(a + b)
  {
  }

  /** What the sections of a scope print at the top level. */
  lemma {:induction false} SectionsQuiet(c: Compiler, env: Env, cs: seq<Clause>, of: Component)
    requires NamedJoins(Components(cs, Joins, c.Engine())) && of in {Select, Ast.From, Where, Joins, Group, Having}
    ensures AllQuiet(EmitClauses(c, env, Chosen(c, cs, of)))
  {
    var list := Chosen(c, cs, of);
    forall cl | cl in list ensures InSelect(cl) {
      if cl.body.Join? { InComponents(cs, Joins, c.Engine(), cl); }
    }
    hide InSelect, Chosen, Quiet, EmitClauses;
    QuietClauses(c, env, list);
  }

  /** The sections from FROM to HAVING. */
  function Body(c: Compiler, env: Env, cs: seq<Clause>): seq<Token> {
    var wheres, havings := Chosen(c, cs, Where), Chosen(c, cs, Having);
    ([Sym("FROM")] + TableSection(EmitClauses(c, env, Chosen(c, cs, Ast.From))).sql)
    + (Joined(EmitClauses(c, env, Chosen(c, cs, Joins)), "").sql
    + (ConditionSection("WHERE", wheres, EmitClauses(c, env, wheres)).sql
    + (Listed("GROUP BY", EmitClauses(c, env, Chosen(c, cs, Group)), ",").sql
    + ConditionSection("HAVING", havings, EmitClauses(c, env, havings)).sql)))
  }

  function Ordering(c: Compiler, cs: seq<Clause>): seq<Token> {
    OrdersOut(OrderParts(c, Components(cs, Order, c.Engine()))).sql
  }

  lemma {:induction false} MiddleIs(c: Compiler, env: Env, q: Query)
    ensures Middle(c, q, EmitParts(c, env, q.clauses)).sql == Body(c, env, q.clauses) + Ordering(c, q.clauses)
  {
    hide EmitClauses, Chosen, TableSection, Joined, ConditionSection, Listed, OrdersOut, OrderParts, Components;
    var p := EmitParts(c, env, q.clauses);
    FiveThen([Sym("FROM")] + TableSection(p.table).sql, Joined(p.joins, "").sql,
             ConditionSection("WHERE", Chosen(c, q.clauses, Where), p.wheres).sql, Listed("GROUP BY", p.groups, ",").sql,
             ConditionSection("HAVING", Chosen(c, q.clauses, Having), p.havings).sql, Ordering(c, q.clauses));
  }

  lemma {:induction false} FiveThen(a: seq<Token>, b: seq<Token>, d: seq<Token>, e: seq<Token>, f: seq<Token>, g: seq<Token>)
    ensures a + (b + (d + (e + (f + g)))) == a + (b + (d + (e + f))) + g
  {
  }

  lemma {:induction false} SectionWords()
    ensures "WHERE" !in PageWords && "FROM" !in PageWords && "HAVING" !in Words && "GROUP BY" !in Words && "" !in Words && "," !in Marks && "," !in Words
  {
  }

  lemma {:induction false} ConditionsQuiet(c: Compiler, env: Env, keyword: string, cs: seq<Clause>)
    requires keyword !in PageWords && AllQuiet(EmitClauses(c, env, cs))
    ensures NoPage(ConditionSection(keyword, cs, EmitClauses(c, env, cs)).sql)
  {
    var list := Connect(cs, EmitClauses(c, env, cs), false).sql;
    QuietConnect(cs, EmitClauses(c, env, cs), false);
    hide Connect, EmitClauses, Quiet;
    QuietHasNoPage(list);
  }

  lemma {:induction false} BodyHasNoPage(c: Compiler, env: Env, cs: seq<Clause>)
    requires NamedJoins(Components(cs, Joins, c.Engine()))
    ensures NoPage(Body(c, env, cs)) && Body(c, env, cs) != [] && Body(c, env, cs)[0] == Sym("FROM")
  {
    hide EmitClauses, Chosen, Joined, ConditionSection, Quiet, Components, NoPage;
    SectionWords();
    SectionsQuiet(c, env, cs, Ast.From);
    SectionsQuiet(c, env, cs, Joins);
    SectionsQuiet(c, env, cs, Where);
    SectionsQuiet(c, env, cs, Group);
    SectionsQuiet(c, env, cs, Having);
    var table := TableSection(EmitClauses(c, env, Chosen(c, cs, Ast.From))).sql;
    TableHasNoPage(EmitClauses(c, env, Chosen(c, cs, Ast.From)));
    QuietJoined(EmitClauses(c, env, Chosen(c, cs, Joins)), "");
    QuietHasNoPage(Joined(EmitClauses(c, env, Chosen(c, cs, Joins)), "").sql);
    ConditionsQuiet(c, env, "WHERE", Chosen(c, cs, Where));
    ConditionsQuiet(c, env, "HAVING", Chosen(c, cs, Having));
    ListHasNoPage(EmitClauses(c, env, Chosen(c, cs, Group)));
    var joins := Joined(EmitClauses(c, env, Chosen(c, cs, Joins)), "").sql;
    var where := ConditionSection("WHERE", Chosen(c, cs, Where), EmitClauses(c, env, Chosen(c, cs, Where))).sql;
    var group := Listed("GROUP BY", EmitClauses(c, env, Chosen(c, cs, Group)), ",").sql;
    var having := ConditionSection("HAVING", Chosen(c, cs, Having), EmitClauses(c, env, Chosen(c, cs, Having))).sql;
    NoPageCat(group, having);
    NoPageCat(where, group + having);
    NoPageCat(joins, where + (group + having));
    NoPageCat([Sym("FROM")] + table, joins + (where + (group + having)));
  }

  lemma {:induction false} TableHasNoPage(parts: seq<Out>)
    requires AllQuiet(parts)
    ensures NoPage([Sym("FROM")] + TableSection(parts).sql)
  {
    SectionWords();
    if parts != [] { QuietHasNoPage(parts[0].sql); }
  }

  lemma {:induction false} ListHasNoPage(parts: seq<Out>)
    requires AllQuiet(parts)
    ensures NoPage(Listed("GROUP BY", parts, ",").sql)
  {
    SectionWords();
    QuietJoined(parts, ",");
    QuietHasNoPage(Joined(parts, ",").sql);
    hide Joined, Quiet;
  }

  // ----- the beginning of the projection ------------------------------------------------------------

  /** A projection does not begin like DISTINCT or like a TOP fragment. */
  predicate SafeHead(ts: seq<Token>) {
    ts != [] ==> ts[0] != Sym("DISTINCT") && (P.OpensTop(ts[0]) ==> |ts| >= 2 && !P.Bound(ts[1]))
  }

  lemma {:induction false} ColumnHead(c: Compiler, env: Env, cl: Clause)
    requires BuiltClause(cl) && Tag(cl) == Select
    ensures SafeHead(EmitClause(c, env, cl).sql)
  {
    hide EmitSelect, EmitGroup, ExpressionTokens, S.SplitAlias, S.Upper, AliasText;
    if cl.body.AggregateColumn? {
      AggregateHeadSafe(c, cl.body.aggregate, cl.body.column,
                        if cl.body.filter.Some? then EmitGroup(c, env, cl.body.filter.value) else Nothing);
    } else {
      assert cl.body.Column? || cl.body.RawColumn? || cl.body.QueryColumn?;
    }
  }

  lemma {:induction false} AggregateHeadSafe(c: Compiler, aggregate: string, column: string, filter: Out)
    ensures SafeHead(AggregateColumnOut(c, aggregate, column, filter).sql)
  {
    CallIsNoDistinct(S.Upper(aggregate));
    hide S.SplitAlias, S.Upper, AliasText;
  }

  lemma {:induction false} CallIsNoDistinct(s: string)
    ensures s + "(" != "DISTINCT"
  {
    assert (s + "(")[|s|] == '(';
    assert "DISTINCT"[7] == 'T';
  }

  lemma {:induction false} ColumnsHead(c: Compiler, env: Env, cs: seq<Clause>)
    requires forall cl <- cs :: BuiltClause(cl) && Tag(cl) == Select
    ensures SafeHead(Joined(EmitClauses(c, env, cs), ",").sql)
  {
    hide BuiltClause, EmitClause;
    if cs != [] {
      ColumnHead(c, env, cs[0]);
      var parts := EmitClauses(c, env, cs);
      assert parts[0] == EmitClause(c, env, cs[0]);
      if |parts| > 1 { assert Joined(parts, ",").sql == parts[0].sql + ([Sym(",")] + Joined(parts[1..], ",").sql); }
    }
  }

  /** The columns, tables and conditions of a scope print no word of a section or a
      join. */
  lemma {:induction false} SectionsCalm(c: Compiler, env: Env, cs: seq<Clause>, of: Component)
    requires of in {Select, Ast.From, Where, Group, Having}
    ensures AllCalm(EmitClauses(c, env, Chosen(c, cs, of)))
  {
    var list := Chosen(c, cs, of);
    forall cl | cl in list ensures InSection(cl) { assert Tag(cl) == of && !cl.body.Join?; }
    hide InSection, Chosen, Calm, EmitClauses;
    CalmClauses(c, env, list);
  }

  lemma {:induction false} HeadRestIsSafe(c: Compiler, env: Env, q: Query, more: seq<Token>)
    requires Built(q.clauses)
    requires more != [] && more[0] == Sym("FROM")
    ensures var columns := EmitClauses(c, env, Chosen(c, q.clauses, Select));
      && Calm(HeadRest(c, q, columns).sql) && Quiet(HeadRest(c, q, columns).sql)
      && SafeHead(HeadRest(c, q, columns).sql + more)
  {
    var list := Chosen(c, q.clauses, Select);
    var columns := EmitClauses(c, env, list);
    BuiltColumns(c, q.clauses);
    ColumnsHead(c, env, list);
    SectionsCalm(c, env, q.clauses, Select);
    SectionWords();
    hide EmitClauses, AliasText, S.Upper, One, Chosen, Built, Calm;
    CalmJoined(columns, ",");
    hide AllCalm, Joined;
    HeadRestTokens(c, q, columns);
    CalmIsQuiet(HeadRest(c, q, columns).sql);
    SafeThen(HeadRest(c, q, columns).sql, more);
  }

  lemma {:induction false} HeadRestTokens(c: Compiler, q: Query, columns: seq<Out>)
    requires Calm(Joined(columns, ",").sql) && SafeHead(Joined(columns, ",").sql)
    ensures Calm(HeadRest(c, q, columns).sql) && SafeHead(HeadRest(c, q, columns).sql)
  {
    HeadWords();
    hide Joined, One, Marks;
    var cl := One(q.clauses, Aggregate, c.Engine());
    if cl.Some? && cl.value.body.Aggregated? {
      CallIsNoDistinct(S.Upper(cl.value.body.kind));
      OpenIsNoWord(S.Upper(cl.value.body.kind));
      CalmName(c, cl.value.body.kind);
      LoneParenthesis();
      hide NameText, S.Upper;
    }
  }

  lemma {:induction false} HeadWords()
    ensures "*" !in Marks && "1" !in Marks && "DISTINCT" !in Marks
  {
    hide Marks;
    NoWordIsNone("*");
    NoWordIsNone("1");
    DistinctIsNoMark();
  }

  lemma {:induction false} DistinctIsNoMark()
    ensures "DISTINCT" !in Marks
  {
  }

  lemma {:induction false} SafeThen(head: seq<Token>, more: seq<Token>)
    requires SafeHead(head) && more != [] && more[0] == Sym("FROM")
    ensures SafeHead(head + more)
  {
    if head == [] {
      assert head + more == more;
    } else {
      assert (head + more)[0] == head[0];
      if |head| >= 2 { assert (head + more)[1] == head[1]; }
    }
  }

  lemma {:induction false} BuiltColumns(c: Compiler, cs: seq<Clause>)
    requires Built(cs)
    ensures forall cl <- Chosen(c, cs, Select) :: BuiltClause(cl) && Tag(cl) == Select
  {
    forall cl | cl in Chosen(c, cs, Select) ensures BuiltClause(cl) && Tag(cl) == Select {
      var i :| 0 <= i < |cs| && cs[i] == cl;
      assert BuiltClause(cs[i]);
    }
  }

  // ----- reading what is printed ------------------------------------------------------------------------

  predicate IsTop(top: seq<Token>) {
    top == [] || (|top| == 3 && P.OpensTop(top[0]) && P.Bound(top[1]) && top[2] == Sym(")"))
  }

  predicate IsStart(start: seq<Token>) { start == [Sym("SELECT")] || start == [Sym("SELECT"), Sym("DISTINCT")] }

  lemma {:induction false} PageReads(start: seq<Token>, top: seq<Token>, rest: seq<Token>, tail: seq<Token>)
    requires IsStart(start) && IsTop(top) && rest != [] && SafeHead(rest) && NoPage(rest)
    requires tail == [] || Opens(tail[0], PageWords)
    ensures ReadPage(start + (top + (rest + tail))) == Page(start + rest, top, tail)
  {
    var body := start + top + rest;
    assert start + (top + (rest + tail)) == body + tail;
    StartHasNoPage(start, top);
    SplitsAt(body, tail, PageWords);
    hide UpTo, NoPage, Opens, SplitTop;
    if top == [] {
      assert start + top == start;
      NoTopSplits(start, rest, tail);
    } else {
      TopSplits(start, top, rest, tail);
    }
  }

  lemma {:induction false} NoTopSplits(start: seq<Token>, rest: seq<Token>, tail: seq<Token>)
    requires IsStart(start) && rest != [] && SafeHead(rest)
    ensures SplitTop(start + rest, tail) == Page(start + rest, [], tail)
  {
    var body := start + rest;
    assert body[|start|] == rest[0];
    if |rest| >= 2 { assert body[|start| + 1] == rest[1]; }
    assert |start| == 1 ==> body[1] != Sym("DISTINCT");
    assert |start| == 2 ==> body[1] == start[1] == Sym("DISTINCT");
  }

  lemma {:induction false} TopSplits(start: seq<Token>, top: seq<Token>, rest: seq<Token>, tail: seq<Token>)
    requires IsStart(start) && IsTop(top) && top != []
    ensures SplitTop(start + top + rest, tail) == Page(start + rest, top, tail)
  {
    var body := start + top + rest;
    assert body[..|start|] == start && body[|start|..|start| + 3] == top && body[|start| + 3..] == rest;
    assert body[|start|] == top[0] && body[|start| + 1] == top[1] && body[|start| + 2] == top[2];
    assert |start| == 1 ==> body[1] == top[0] == Sym("TOP (") && Sym("TOP (") != Sym("DISTINCT") by {
      assert |"TOP ("| != |"DISTINCT"|;
    }
    assert |start| == 2 ==> body[1] == start[1] == Sym("DISTINCT");
  }

  lemma {:induction false} StartHasNoPage(start: seq<Token>, top: seq<Token>)
    requires IsStart(start) && IsTop(top)
    ensures NoPage(start) && NoPage(top)
  {
  }

  lemma {:induction false} TopAndTail(c: Compiler, ordered: bool, limit: int, offset: int)
    ensures IsTop(TopSection(c, limit, offset).sql)
    ensures var tail := LimitSection(c, ordered, limit, offset).sql; tail == [] || Opens(tail[0], PageWords)
  {
  }

  lemma {:induction false} StartIs(c: Compiler, q: Query)
    ensures IsStart(Start(c, q))
  {
    hide One;
  }

  /** The text of a query without pagination. */
  lemma {:induction false} UnpagedPrints(c: Compiler, outer: Env, q: Query)
    requires Components(q.clauses, Combine, c.Engine()) == []
    ensures EmitQuery(c, outer, Unpaged(q)) == Cat(Text(Start(c, q)), Rest(c, outer, q))
  {
    var p := EmitParts(c, outer + q.variables, q.clauses);
    NoPages(c, q.clauses);
    PartsUnpaged(c, outer + q.variables, q.clauses);
    CombinesEmpty(c, outer + q.variables, q.clauses);
    EmitAssembled(c, outer, Unpaged(q));
    SameMiddle(c, q, p);
    SameStart(c, q, p.columns);
    hide EmitQuery, EmitParts, Assemble, HeadSection, Middle, HeadRest, Start, TopSection, LimitSection, Components, Without,
      LimitOf, OffsetOf, Cat, RownumWrap;
    AssembleIs(c, Unpaged(q), p);
    HeadIs(c, Unpaged(q), p.columns);
    NoTail(c, Components(Unpaged(q).clauses, Order, c.Engine()) != []);
    PagedStep(Text(Start(c, q)), Nothing, HeadRest(c, q, p.columns), Middle(c, q, p), Nothing);
    RownumOfNothing(Assemble(c, Unpaged(q), p));
  }

  lemma {:induction false} RestReads(c: Compiler, outer: Env, q: Query)
    requires Built(q.clauses) && NamedJoins(Components(q.clauses, Joins, c.Engine()))
    ensures var rest := Rest(c, outer, q).sql; rest != [] && SafeHead(rest) && NoPage(rest)
  {
    var env := outer + q.variables;
    var columns := EmitClauses(c, env, Chosen(c, q.clauses, Select));
    var body, order := Body(c, env, q.clauses), Ordering(c, q.clauses);
    BodyHasNoPage(c, env, q.clauses);
    QuietOrders(c, Components(q.clauses, Order, c.Engine()));
    QuietHasNoPage(order);
    MiddleIs(c, env, q);
    assert (body + order)[0] == body[0];
    HeadRestIsSafe(c, env, q, body + order);
    var head := HeadRest(c, q, columns).sql;
    QuietHasNoPage(head);
    hide Body, Ordering, HeadRest, Built, Quiet, NoPage, SafeHead, EmitClauses, Components, Middle;
    NoPageCat(body, order);
    NoPageCat(head, body + order);
    assert Rest(c, outer, q).sql == head + (body + order);
  }

  /** All dialects but SQL Server's legacy form with an offset and Oracle's legacy
      form. */
  lemma {:induction false} SectionPageReads<T>(c: Compiler, outer: Env, q: Query, D: Database<T>)
    requires Built(q.clauses) && NamedJoins(Components(q.clauses, Joins, c.Engine()))
    requires Components(q.clauses, Combine, c.Engine()) == [] && c.dialect != Oracle(true) && !Recompiled(c, q)
    requires P.Sized(LimitOf(c, q.clauses), OffsetOf(c, q.clauses))
    ensures ReadRows(c, D, EmitQuery(c, outer, q).sql) ==
      Some(P.Returned(c.dialect, LimitOf(c, q.clauses), OffsetOf(c, q.clauses), D(Starred(EmitQuery(c, outer, Unpaged(q)).sql))))
  {
    hide EmitQuery, Rest, Start, TopSection, LimitSection, ReadPage, ReadRows, Components, LimitOf, OffsetOf, Starred, Built,
      SafeHead, NoPage, IsStart, IsTop, P.TopRows, P.TailRows, P.Returned, NamedJoins;
    var limit, offset := LimitOf(c, q.clauses), OffsetOf(c, q.clauses);
    var ordered := Components(q.clauses, Order, c.Engine()) != [];
    var start, rest := Start(c, q), Rest(c, outer, q).sql;
    var top, tail := TopSection(c, limit, offset).sql, LimitSection(c, ordered, limit, offset).sql;
    var rows := D(Starred(start + rest));
    PagedPrints(c, outer, q);
    StartIs(c, q);
    RestReads(c, outer, q);
    TopAndTail(c, ordered, limit, offset);
    PageReads(start, top, rest, tail);
    SectionsAreWindow(c, ordered, limit, offset, rows);
    assert EmitQuery(c, outer, q).sql == start + (top + (rest + tail));
    assert EmitQuery(c, outer, Unpaged(q)).sql == start + rest;
    NotWrapped(start, top + (rest + tail));
    ReadsAsPage(c, D, EmitQuery(c, outer, q).sql);
  }

  /** A text that is no wrapper is read by its pagination sections. */
  lemma {:induction false} ReadsAsPage<T>(c: Compiler, D: Database<T>, sql: seq<Token>)
    requires c.dialect != Oracle(true) && sql != [] && !P.OpensPlain(sql[0])
    ensures var page := ReadPage(sql);
      ReadRows(c, D, sql) == match P.TopRows(page.top, D(Starred(page.plain)))
        case None => None
        case Some(rows) => P.TailRows(page.tail, rows)
  {
    hide ReadPage, P.TopRows, P.TailRows, P.OpensPlain, Starred;
  }

  lemma {:induction false} SectionsAreWindow<T>(c: Compiler, ordered: bool, limit: int, offset: int, rows: seq<T>)
    requires c.dialect != Oracle(true) && !(c.dialect == SqlServer(true) && offset > 0)
    requires P.Sized(limit, offset)
    ensures (match P.TopRows(TopSection(c, limit, offset).sql, rows)
        case None => None
        case Some(top) => P.TailRows(LimitSection(c, ordered, limit, offset).sql, top))
      == Some(P.Returned(c.dialect, limit, offset, rows))
  {
    P.OneWindow(c, ordered, limit, offset, Nothing, rows);
    if c.dialect == SqlServer(true) { NoTailRows(c, ordered, limit, offset, rows); }
    hide TopSection, LimitSection, P.TopRows, P.TailRows, P.Returned, P.RowNumberRows, P.RownumRows, RownumWrap, RowNumberWrap;
  }

  lemma {:induction false} NotWrapped(start: seq<Token>, more: seq<Token>)
    requires IsStart(start)
    ensures !P.OpensPlain((start + more)[0]) && !P.OpensNumbered((start + more)[0])
  {
    assert (start + more)[0] == Sym("SELECT");
    assert |"SELECT"| == 6 && |"SELECT * FROM ("| == 15;
    assert |"SELECT * FROM (SELECT \"results_wrapper\".*, ROWNUM \"row_num\" FROM ("| > 6;
  }

  /** SQL Server's legacy form without an offset has nothing at the end. */
  lemma {:induction false} NoTailRows<T>(c: Compiler, ordered: bool, limit: int, offset: int, rows: seq<T>)
    requires c.dialect == SqlServer(true)
    ensures LimitSection(c, ordered, limit, offset).sql == []
    ensures forall rows: seq<T> :: P.TailRows([], rows) == Some(rows)
  {
  }

  lemma {:induction false} RownumPageReads<T>(c: Compiler, outer: Env, q: Query, D: Database<T>)
    requires Components(q.clauses, Combine, c.Engine()) == [] && c.dialect == Oracle(true)
    requires P.Sized(LimitOf(c, q.clauses), OffsetOf(c, q.clauses))
    ensures ReadRows(c, D, EmitQuery(c, outer, q).sql) ==
      Some(P.Returned(c.dialect, LimitOf(c, q.clauses), OffsetOf(c, q.clauses), D(Starred(EmitQuery(c, outer, Unpaged(q)).sql))))
  {
    hide EmitQuery, Start, Rest, LimitOf, OffsetOf, Components, Starred, P.RownumRows, P.Returned, P.Skip, P.Take, Unpaged;
    var limit, offset := LimitOf(c, q.clauses), OffsetOf(c, q.clauses);
    var body := EmitQuery(c, outer, Unpaged(q));
    var rows := D(Starred(body.sql));
    RownumPrints(c, outer, q);
    UnpagedPrints(c, outer, q);
    StartIs(c, q);
    P.OneWindow(c, false, limit, offset, body, rows);
    if limit == 0 && offset == 0 {
      RownumOfNothing(body);
      NotWrapped(Start(c, q), Rest(c, outer, q).sql);
    } else {
      P.RownumTexts(body, limit, offset);
      hide RownumWrap, P.OpensPlain, P.OpensNumbered;
    }
  }

  // ----- the numbered query ---------------------------------------------------------------------------------

  function NumberColumnText(c: Compiler, cs: seq<Clause>): seq<Token> {
    var orders := Components(cs, Order, c.Engine());
    [Sym("ROW_NUMBER() OVER (")] + (if orders == [] then [Sym("ORDER BY (SELECT 0)")] else Ordering(c, cs))
    + [Sym(") AS"), Ident("row_num")]
  }

  /** The projection of the clone before the number. */
  function Projection(c: Compiler, env: Env, cs: seq<Clause>): seq<Token> {
    var columns := EmitClauses(c, env, Chosen(c, cs, Select));
    if columns == [] then [Ident("*")] else Joined(columns, ",").sql
  }

  lemma {:induction false} JoinedLast(parts: seq<Out>, last: Out)
    requires parts != []
    ensures Joined(parts + [last], ",").sql == Joined(parts, ",").sql + ([Sym(",")] + last.sql)
  {
    var all := parts + [last];
    assert all[0] == parts[0];
    if |parts| == 1 {
      assert all[1..] == [last];
    } else {
      assert all[1..] == parts[1..] + [last];
      JoinedLast(parts[1..], last);
      var tail := [Sym(",")] + last.sql;
      assert parts[0].sql + ([Sym(",")] + (Joined(parts[1..], ",").sql + tail))
        == parts[0].sql + ([Sym(",")] + Joined(parts[1..], ",").sql) + tail;
    }
  }

  /** The columns of the clone: the projection, or a star, and the number. */
  lemma {:induction false} NumberedColumns(c: Compiler, env: Env, q: Query)
    requires AppendsVisibly(c, q) && One(q.clauses, Aggregate, c.Engine()).None?
    ensures Joined(EmitClauses(c, env, Chosen(c, RowNumbered(c, q).clauses, Select)), ",").sql
      == Projection(c, env, q.clauses) + ([Sym(",")] + [Inner(NumberColumnText(c, q.clauses))])
    ensures EmitClauses(c, env, Chosen(c, RowNumbered(c, q).clauses, Select)) != []
  {
    var added := Stamp(q.engineScope, RowNumberColumns(c, q));
    var columns := EmitClauses(c, env, Chosen(c, q.clauses, Select));
    hide RowNumbered, RowNumberColumns, Components, One, NumberColumnText, Joined, Chosen, Stamp, OrderArgs, AppendsVisibly,
      LimitOf, OffsetOf;
    NumberedSections(c, q);
    AddedAre(c, env, q);
    EmittedConcat(c, env, Chosen(c, q.clauses, Select), added);
    hide EmitClauses;
    assert Chosen(c, RowNumbered(c, q).clauses, Select) == Chosen(c, q.clauses, Select) + added;
    var number := Out([Inner(NumberColumnText(c, q.clauses))], OrderArgs(c, q));
    var all := EmitClauses(c, env, Chosen(c, RowNumbered(c, q).clauses, Select));
    assert all == columns + EmitClauses(c, env, added);
    NumberJoins(columns, number);
    assert all == columns + if columns == [] then [Text([Ident("*")]), number] else [number];
    assert number.sql == [Inner(NumberColumnText(c, q.clauses))];
  }

  lemma {:induction false} EmittedConcat(c: Compiler, env: Env, a: seq<Clause>, b: seq<Clause>)
    ensures EmitClauses(c, env, a + b) == EmitClauses(c, env, a) + EmitClauses(c, env, b)
  {
    hide EmitClause;
    if a == [] {
      assert a + b == b;
    } else {
      assert (a + b)[1..] == a[1..] + b;
      EmittedConcat(c, env, a[1..], b);
    }
  }

  lemma {:induction false} NumberJoins(columns: seq<Out>, number: Out)
    ensures var all := columns + if columns == [] then [Text([Ident("*")]), number] else [number];
      && all != []
      && Joined(all, ",").sql == (if columns == [] then [Ident("*")] else Joined(columns, ",").sql) + ([Sym(",")] + number.sql)
  {
    hide Joined;
    if columns == [] {
      assert columns + [Text([Ident("*")]), number] == [Text([Ident("*")])] + [number];
      JoinedLast([Text([Ident("*")])], number);
      JoinedOne(Text([Ident("*")]));
    } else {
      JoinedLast(columns, number);
    }
  }

  lemma {:induction false} JoinedOne(part: Out)
    ensures Joined([part], ",") == part
  {
  }

  /** The added number column: text the compiler printed itself. */
  function NumberBody(c: Compiler, q: Query): Body {
    RawColumn(Select, Raw(Printed(NumberColumnText(c, q.clauses)), OrderArgs(c, q)))
  }

  lemma {:induction false} NumberColumnsAre(c: Compiler, env: Env, q: Query)
    requires One(q.clauses, Aggregate, c.Engine()).None?
    ensures RowNumberColumns(c, q) ==
      (if Chosen(c, q.clauses, Select) == [] then [Column(Select, "*"), NumberBody(c, q)] else [NumberBody(c, q)])
    ensures EmitClause(c, env, Clause(q.engineScope, NumberBody(c, q))) ==
      Out([Inner(NumberColumnText(c, q.clauses))], OrderArgs(c, q))
  {
    hide OrderParts, OrdersOut, Components, Without, One;
    ComponentsWithout(q.clauses, {Order, Limit, Offset}, Select, c.Engine());
    NoOrders(c);
    assert Chosen(c, q.clauses, Select) == Components(q.clauses, Select, c.Engine());
  }

  lemma {:induction false} TwoEmitted(c: Compiler, env: Env, a: Clause, b: Clause)
    ensures EmitClauses(c, env, [a, b]) == [EmitClause(c, env, a)] + EmitClauses(c, env, [b])
  {
    hide EmitClause;
    assert [a, b][1..] == [b];
  }

  lemma {:induction false} SomeEmitted(c: Compiler, env: Env, cs: seq<Clause>)
    ensures EmitClauses(c, env, cs) == [] <==> cs == []
  {
    hide EmitClause;
  }

  lemma {:induction false} AddedAre(c: Compiler, env: Env, q: Query)
    requires One(q.clauses, Aggregate, c.Engine()).None?
    ensures var number := Out([Inner(NumberColumnText(c, q.clauses))], OrderArgs(c, q));
      EmitClauses(c, env, Stamp(q.engineScope, RowNumberColumns(c, q)))
      == (if Chosen(c, q.clauses, Select) == [] then [Text([Ident("*")]), number] else [number])
    ensures Chosen(c, q.clauses, Select) == [] <==> EmitClauses(c, env, Chosen(c, q.clauses, Select)) == []
  {
    hide RowNumberColumns, NumberColumnText, Chosen, OrderArgs, EmitClauses, RawOut, One, Components;
    var number := NumberBody(c, q);
    var added := Stamp(q.engineScope, RowNumberColumns(c, q));
    NumberColumnsAre(c, env, q);
    var cl := Clause(q.engineScope, number);
    OneEmitted(c, env, cl);
    SomeEmitted(c, env, Chosen(c, q.clauses, Select));
    if Chosen(c, q.clauses, Select) == [] {
      var star := Clause(q.engineScope, Column(Select, "*"));
      assert added == [star, cl] && added[1..] == [cl];
      assert EmitClause(c, env, star) == Text([Ident("*")]);
      TwoEmitted(c, env, star, cl);
    } else {
      assert added == [cl];
    }
  }

  lemma {:induction false} OneEmitted(c: Compiler, env: Env, cl: Clause)
    ensures EmitClauses(c, env, [cl]) == [EmitClause(c, env, cl)]
  {
    hide EmitClause;
    assert [cl][1..] == [];
  }

  /** The text of the clone: the projection, the number, and the sections of the
      query without its ordering. */
  lemma {:induction false} NumberedPrints(c: Compiler, env: Env, q: Query)
    requires AppendsVisibly(c, q) && One(q.clauses, Aggregate, c.Engine()).None? && env + q.variables == env
    requires Components(q.clauses, Combine, c.Engine()) == [] && c.dialect == SqlServer(true)
    ensures EmitQuery(c, env, RowNumbered(c, q)).sql ==
      Start(c, q) + (Projection(c, env, q.clauses) + ([Sym(",")] + [Inner(NumberColumnText(c, q.clauses))]) + Body(c, env, q.clauses))
  {
    var n := RowNumbered(c, q);
    NumberedSections(c, q);
    NumberedVariables(c, q);
    NumberedColumns(c, env, q);
    NumberedSelf(c, q);
    NumberedStart(c, q);
    NumberedSection(c, q, Combine);
    hide RowNumbered, AppendsVisibly, EmitQuery, One, EmitClauses, RowNumberColumns, Projection, NumberColumnText;
    assert Components(n.clauses, Combine, c.Engine()) == [];
    hide Components;
    UnpagedPrints(c, env, n);
    MiddleIs(c, env, n);
    SameBodyText(c, env, n.clauses, q.clauses);
    NoOrders(c);
    hide Body, Start, Joined, Middle, Without;
    HeadRestOfColumns(c, n, EmitClauses(c, env, Chosen(c, n.clauses, Select)));
    assert Ordering(c, n.clauses) == [];
    assert Body(c, env, q.clauses) + [] == Body(c, env, q.clauses);
    assert Rest(c, env, n).sql == Joined(EmitClauses(c, env, Chosen(c, n.clauses, Select)), ",").sql + Body(c, env, q.clauses);
  }

  lemma {:induction false} HeadRestOfColumns(c: Compiler, q: Query, columns: seq<Out>)
    requires One(q.clauses, Aggregate, c.Engine()).None? && columns != []
    ensures HeadRest(c, q, columns) == Joined(columns, ",")
  {
    hide One, Joined;
  }

  /** The clone has no pagination of its own. */
  lemma {:induction false} NumberedSelf(c: Compiler, q: Query)
    ensures Unpaged(RowNumbered(c, q)) == RowNumbered(c, q)
  {
    var bare := Without(q.clauses, {Order, Limit, Offset});
    var added := Stamp(q.engineScope, RowNumberColumns(c, q));
    assert forall cl <- bare + added :: Tag(cl) != Limit && Tag(cl) != Offset;
    WithoutNone(bare + added, {Limit, Offset});
  }

  lemma {:induction false} WithoutNone(cs: seq<Clause>, of: set<Component>)
    requires forall cl <- cs :: Tag(cl) !in of
    ensures Without(cs, of) == cs
  {
    if cs != [] {
      WithoutNone(cs[1..], of);
      assert cs == [cs[0]] + cs[1..];
    }
  }

  lemma {:induction false} NumberedStart(c: Compiler, q: Query)
    requires AppendsVisibly(c, q) && One(q.clauses, Aggregate, c.Engine()).None?
    ensures Start(c, RowNumbered(c, q)) == Start(c, q) == [Sym("SELECT")] + (if q.distinct then [Sym("DISTINCT")] else [])
  {
    NumberedSections(c, q);
    assert RowNumbered(c, q).distinct == q.distinct;
    hide RowNumbered, One;
  }

  lemma {:induction false} SameBodyText(c: Compiler, env: Env, a: seq<Clause>, b: seq<Clause>)
    requires forall of <- {Ast.From, Joins, Where, Group, Having, Combine} :: Chosen(c, a, of) == Chosen(c, b, of)
    ensures Body(c, env, a) == Body(c, env, b)
  {
    assert Ast.From in {Ast.From, Joins, Where, Group, Having, Combine} && Joins in {Ast.From, Joins, Where, Group, Having, Combine};
    assert Where in {Ast.From, Joins, Where, Group, Having, Combine} && Group in {Ast.From, Joins, Where, Group, Having, Combine};
    assert Having in {Ast.From, Joins, Where, Group, Having, Combine};
    hide Chosen, EmitClauses, TableSection, Joined, ConditionSection, Listed;
  }

  /** Reading the numbered text gives back the projection, the sections and the
      ordering that went into the OVER clause. */
  lemma {:induction false} NumberedReads(distinct: bool, projection: seq<Token>, order: seq<Token>, body: seq<Token>)
    requires Quiet(projection) && projection != [] && projection[0] != Sym("DISTINCT")
    requires body != [] && body[0] == Sym("FROM")
    ensures var number := [Sym("ROW_NUMBER() OVER (")] + order + [Sym(") AS"), Ident("row_num")];
      var start := [Sym("SELECT")] + if distinct then [Sym("DISTINCT")] else [];
      ReadNumbered(start + (projection + ([Sym(",")] + [Inner(number)]) + body))
      == Some(NumberedSelect(distinct,
           [Sym("SELECT")] + projection + body + if order == [Sym("ORDER BY (SELECT 0)")] then [] else order))
  {
    var number := [Sym("ROW_NUMBER() OVER (")] + order + [Sym(") AS"), Ident("row_num")];
    var start := [Sym("SELECT")] + if distinct then [Sym("DISTINCT")] else [];
    assert Opens(body[0], {"FROM"});
    hide ReadNumber, UpTo, Quiet, Opens, SplitNumbered;
    var head := start + projection + [Sym(","), Inner(number)];
    assert start + (projection + ([Sym(",")] + [Inner(number)]) + body) == head + body;
    HeadIsNoFrom(start, projection, number);
    SplitsAt(head, body, {"FROM"});
    NumberReads(order);
    NumberedSplits(distinct, projection, number, order, body);
  }

  lemma {:induction false} NumberedSplits(distinct: bool, projection: seq<Token>, number: seq<Token>, order: seq<Token>, body: seq<Token>)
    requires projection != [] && projection[0] != Sym("DISTINCT") && ReadNumber(number) == Some(order)
    ensures var start := [Sym("SELECT")] + if distinct then [Sym("DISTINCT")] else [];
      SplitNumbered(start + projection + [Sym(","), Inner(number)], body)
      == Some(NumberedSelect(distinct,
           [Sym("SELECT")] + projection + body + if order == [Sym("ORDER BY (SELECT 0)")] then [] else order))
  {
    hide ReadNumber;
    var start := [Sym("SELECT")] + if distinct then [Sym("DISTINCT")] else [];
    var head := start + projection + [Sym(","), Inner(number)];
    assert head[|start|..|head| - 2] == projection;
    assert head[1] == if distinct then Sym("DISTINCT") else projection[0];
    assert head[|head| - 2] == Sym(",") && head[|head| - 1] == Inner(number) && head[0] == Sym("SELECT");
  }

  lemma {:induction false} NumberReads(order: seq<Token>)
    ensures ReadNumber([Sym("ROW_NUMBER() OVER (")] + order + [Sym(") AS"), Ident("row_num")]) == Some(order)
  {
    var number := [Sym("ROW_NUMBER() OVER (")] + order + [Sym(") AS"), Ident("row_num")];
    assert number[|number| - 2..] == [Sym(") AS"), Ident("row_num")] && number[1..|number| - 2] == order;
  }

  lemma {:induction false} HeadIsNoFrom(start: seq<Token>, projection: seq<Token>, number: seq<Token>)
    requires IsStart(start) && Quiet(projection)
    ensures forall t <- start + projection + [Sym(","), Inner(number)] :: !Opens(t, {"FROM"})
  {
    QuietHasNoPage(projection);
    hide Quiet;
  }

  lemma {:induction false} ProjectionReads(c: Compiler, env: Env, cs: seq<Clause>)
    requires Built(cs) && NamedJoins(Components(cs, Joins, c.Engine())) && One(cs, Aggregate, c.Engine()).None?
    requires Joined(EmitClauses(c, env, Chosen(c, cs, Select)), ",").sql != [] || Chosen(c, cs, Select) == []
    ensures var p := Projection(c, env, cs); Quiet(p) && p != [] && p[0] != Sym("DISTINCT")
  {
    BuiltColumns(c, cs);
    ColumnsHead(c, env, Chosen(c, cs, Select));
    SectionsQuiet(c, env, cs, Select);
    SectionWords();
    QuietJoined(EmitClauses(c, env, Chosen(c, cs, Select)), ",");
    hide Joined, Built, Chosen;
  }

  /** Without DISTINCT. */
  function Undistinct(q: Query): Query { q.(distinct := false) }

  lemma {:induction false} StarredCat(a: seq<Token>, b: seq<Token>)
    ensures Starred(a + b) == Starred(a) + Starred(b)
  {
  }

  /** What the numbered text reads as is the text of the query without pagination
      and DISTINCT. */
  lemma {:induction false} PlainIsUnpaged(c: Compiler, outer: Env, q: Query)
    requires One(q.clauses, Aggregate, c.Engine()).None? && Components(q.clauses, Combine, c.Engine()) == []
    ensures var env := outer + q.variables;
      Starred([Sym("SELECT")] + Projection(c, env, q.clauses) + Body(c, env, q.clauses) + Ordering(c, q.clauses))
      == Starred(EmitQuery(c, outer, Unpaged(Undistinct(q))).sql)
  {
    hide EmitQuery, Body, Ordering, HeadRest, EmitClauses, Joined, One, Components, Chosen, Starred;
    var env := outer + q.variables;
    var columns := EmitClauses(c, env, Chosen(c, q.clauses, Select));
    UndistinctText(c, outer, q);
    HeadStarred(c, Undistinct(q), columns);
    StarredParts(HeadRest(c, Undistinct(q), columns).sql, Projection(c, env, q.clauses), Body(c, env, q.clauses), Ordering(c, q.clauses));
  }

  lemma {:induction false} UndistinctText(c: Compiler, outer: Env, q: Query)
    requires One(q.clauses, Aggregate, c.Engine()).None? && Components(q.clauses, Combine, c.Engine()) == []
    ensures var env := outer + q.variables;
      EmitQuery(c, outer, Unpaged(Undistinct(q))).sql ==
        [Sym("SELECT")] + (HeadRest(c, Undistinct(q), EmitClauses(c, env, Chosen(c, q.clauses, Select))).sql
                           + (Body(c, env, q.clauses) + Ordering(c, q.clauses)))
  {
    hide EmitQuery, Body, Ordering, Middle, HeadRest, EmitClauses, One, Components, Chosen, Without;
    var env := outer + q.variables;
    var u := Undistinct(q);
    UnpagedPrints(c, outer, u);
    MiddleIs(c, env, u);
    PartsColumns(c, env, q.clauses);
    hide EmitParts;
    assert Start(c, u) == [Sym("SELECT")] + [];
  }

  lemma {:induction false} PartsColumns(c: Compiler, env: Env, cs: seq<Clause>)
    ensures EmitParts(c, env, cs).columns == EmitClauses(c, env, Chosen(c, cs, Select))
  {
    hide EmitClauses, Chosen;
  }

  lemma {:induction false} StarredParts(a: seq<Token>, b: seq<Token>, body: seq<Token>, order: seq<Token>)
    requires Starred(a) == Starred(b)
    ensures Starred([Sym("SELECT")] + b + body + order) == Starred([Sym("SELECT")] + (a + (body + order)))
  {
    hide Starred;
    StarredCat([Sym("SELECT")], a + (body + order));
    StarredCat(a, body + order);
    assert [Sym("SELECT")] + b + body + order == [Sym("SELECT")] + (b + (body + order));
    StarredCat([Sym("SELECT")], b + (body + order));
    StarredCat(b, body + order);
  }

  lemma {:induction false} HeadStarred(c: Compiler, u: Query, columns: seq<Out>)
    requires One(u.clauses, Aggregate, c.Engine()).None?
    ensures Starred(HeadRest(c, u, columns).sql) == Starred(if columns == [] then [Ident("*")] else Joined(columns, ",").sql)
  {
    hide One, Joined;
    assert Starred([Ident("*")]) == [Sym("*")] == Starred([Sym("*")]);
  }

  lemma {:induction false} OrderingIsNoFiller(c: Compiler, cs: seq<Clause>)
    ensures Ordering(c, cs) != [Sym("ORDER BY (SELECT 0)")]
    ensures Components(cs, Order, c.Engine()) == [] ==> Ordering(c, cs) == []
  {
    hide Components, OrderOut, Joined;
    assert |"ORDER BY"| != |"ORDER BY (SELECT 0)"|;
    var parts := OrderParts(c, Components(cs, Order, c.Engine()));
    if parts != [] { assert Ordering(c, cs)[0] == Sym("ORDER BY"); }
  }

  /** SQL Server's legacy form with an offset: the window of the rows before
      DISTINCT. */
  lemma {:induction false} RowNumberPageReads<T>(c: Compiler, outer: Env, q: Query, D: Database<T>)
    requires Built(q.clauses) && NamedJoins(Components(q.clauses, Joins, c.Engine()))
    requires Components(q.clauses, Combine, c.Engine()) == [] && Recompiled(c, q)
    requires AppendsVisibly(c, q) && One(q.clauses, Aggregate, c.Engine()).None? && PrintsColumns(c, outer, q)
    requires P.Sized(LimitOf(c, q.clauses), OffsetOf(c, q.clauses))
    ensures ReadRows(c, D, EmitQuery(c, outer, q).sql) ==
      Some(P.Returned(c.dialect, LimitOf(c, q.clauses), OffsetOf(c, q.clauses), D(Starred(EmitQuery(c, outer, Unpaged(Undistinct(q))).sql))))
  {
    hide EmitQuery, RowNumbered, RowNumberWrap, Starred, P.RowNumberRows, P.Returned, P.Numbers, P.Plain, P.Deduped, ReadNumbered,
      ReadRows, LimitOf, OffsetOf, Components, One, Built, NamedJoins, PrintsColumns, Undistinct, AppendsVisibly, P.OpensPlain,
      P.Filters, P.AtLeast, P.InBetween, P.Binds;
    var limit, offset := LimitOf(c, q.clauses), OffsetOf(c, q.clauses);
    var env := outer + q.variables;
    var numbered := EmitQuery(c, env, RowNumbered(c, q));
    var rows := D(Starred(EmitQuery(c, outer, Unpaged(Undistinct(q))).sql));
    EmitRecompiled(c, outer, q);
    NumberedInnerReads(c, outer, q);
    P.RowNumberTexts(numbered, limit, offset);
    RowNumbersAreWindow(numbered, limit, offset, rows);
    ReadsAsNumbered(c, D, RowNumberWrap(numbered, limit, offset).sql, numbered.sql);
  }

  lemma {:induction false} RowNumbersAreWindow<T>(inner: Out, limit: int, offset: int, rows: seq<T>)
    requires P.Sized(limit, offset) && offset > 0
    ensures P.RowNumberRows(RowNumberWrap(inner, limit, offset).sql, rows) == Some(P.Returned(SqlServer(true), limit, offset, rows))
    ensures P.Plain(P.Deduped(P.Numbers(rows, 1))) == rows
  {
    P.RowNumberWindow(inner, limit, offset, rows);
    P.NumbersDefeatDistinct(rows, 1);
    P.PlainNumbers(rows, 1);
  }

  /** A wrapper around numbered rows is read by what it wraps. */
  lemma {:induction false} ReadsAsNumbered<T>(c: Compiler, D: Database<T>, sql: seq<Token>, inner: seq<Token>)
    requires c.dialect == SqlServer(true) && |sql| >= 2 && P.OpensPlain(sql[0]) && sql[1] == Inner(inner)
    requires ReadNumbered(inner).Some?
    ensures var s := ReadNumbered(inner).value; var rows := D(Starred(s.plain));
      ReadRows(c, D, sql) == P.RowNumberRows(sql, if s.distinct then P.Plain(P.Deduped(P.Numbers(rows, 1))) else rows)
  {
    hide ReadNumbered, Starred, P.RowNumberRows, P.Numbers, P.Plain, P.Deduped, P.OpensPlain;
  }

  /** The projection prints something (an empty raw expression alone does not). */
  predicate PrintsColumns(c: Compiler, outer: Env, q: Query) {
    var list := Chosen(c, q.clauses, Select);
    list == [] || Joined(EmitClauses(c, outer + q.variables, list), ",").sql != []
  }

  lemma {:induction false} NumberedInnerReads(c: Compiler, outer: Env, q: Query)
    requires Built(q.clauses) && NamedJoins(Components(q.clauses, Joins, c.Engine()))
    requires Components(q.clauses, Combine, c.Engine()) == [] && c.dialect == SqlServer(true)
    requires AppendsVisibly(c, q) && One(q.clauses, Aggregate, c.Engine()).None? && PrintsColumns(c, outer, q)
    ensures var read := ReadNumbered(EmitQuery(c, outer + q.variables, RowNumbered(c, q)).sql);
      && read.Some? && read.value.distinct == q.distinct
      && Starred(read.value.plain) == Starred(EmitQuery(c, outer, Unpaged(Undistinct(q))).sql)
  {
    var env := outer + q.variables;
    assert env + q.variables == env;
    NumberedPrints(c, env, q);
    NumberedStart(c, q);
    ProjectionReads(c, env, q.clauses);
    BodyHasNoPage(c, env, q.clauses);
    PlainIsUnpaged(c, outer, q);
    OrderingIsNoFiller(c, q.clauses);
    hide EmitQuery, RowNumbered, Starred, ReadNumbered, One, Built, NamedJoins, Projection, Body, Ordering, Quiet, NoPage, Start;
    var orders := Components(q.clauses, Order, c.Engine());
    hide Components;
    NumberedReads(q.distinct, Projection(c, env, q.clauses),
                  if orders == [] then [Sym("ORDER BY (SELECT 0)")] else Ordering(c, q.clauses), Body(c, env, q.clauses));
  }
}
