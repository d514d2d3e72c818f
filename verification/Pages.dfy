/** Whole printed pages, read back: for every dialect, exactly when they are the
    window that the limit and the offset describe, and what they are when not. */
module Pages {
  import opened Ast
  import opened Dialects
  import opened Emit
  import opened Keywords
  import opened PagedQueries
  import opened Placeholders
  import opened Windows
  import A = Alignment
  import B = Building
  import P = Paging
  import Runs = Programs
  import S = Strings

  // ----- selects without a row number -----------------------------------------------------------

  /** The last token is no row number. */
  predicate NoNumber(ts: seq<Token>) {
    ts != [] && ts[|ts| - 1].Inner? ==> ReadNumber(ts[|ts| - 1].tokens).None?
  }

  lemma {:induction false} NumberUnread(start: seq<Token>, head: seq<Token>, body: seq<Token>)
    requires IsStart(start) && Quiet(head) && NoNumber(head) && body != [] && body[0] == Sym("FROM")
    ensures ReadNumbered(start + (head + body)).None?
  {
    assert start + (head + body) == (start + head) + body;
    assert Opens(body[0], {"FROM"});
    StartNoFrom(start);
    QuietHasNoPage(head);
    hide Quiet, Opens, ReadNumber, UpTo;
    SplitsAt(start + head, body, {"FROM"});
    assert head == [] ==> start + head == start;
    assert head != [] ==> (start + head)[|start + head| - 1] == head[|head| - 1];
  }

  lemma {:induction false} StartNoFrom(start: seq<Token>)
    requires IsStart(start)
    ensures forall t <- start :: !Opens(t, {"FROM"})
  {
  }

  /** A number behind nothing is not read either. */
  lemma {:induction false} LoneNumberUnread(start: seq<Token>, number: seq<Token>, body: seq<Token>)
    requires IsStart(start) && body != [] && body[0] == Sym("FROM")
    ensures ReadNumbered(start + (([] + ([Sym(",")] + [Inner(number)])) + body)).None?
  {
    var head := start + [] + [Sym(","), Inner(number)];
    assert start + (([] + ([Sym(",")] + [Inner(number)])) + body) == head + body;
    assert Opens(body[0], {"FROM"});
    assert Quiet([]);
    HeadIsNoFrom(start, [], number);
    hide Opens, ReadNumber, UpTo;
    SplitsAt(head, body, {"FROM"});
    assert |head| == |start| + 2;
    assert |start| == 1 ==> head[1] == Sym(",");
  }

  // ----- columns ------------------------------------------------------------------------------------

  lemma {:induction false} RawIsNoNumber(text: string, bindings: seq<Value>)
    ensures ReadNumber(RawTokens(text, bindings)).None?
  {
  }

  lemma {:induction false} ColumnIsNoNumber(c: Compiler, env: Env, cl: Clause)
    requires BuiltClause(cl) && Tag(cl) == Select && (cl.body.RawColumn? ==> cl.body.raw.expression.Written?)
    ensures NoNumber(EmitClause(c, env, cl).sql)
  {
    hide EmitSelect, EmitGroup, ReadNumber, S.SplitAlias, S.Upper, BuiltClause;
    ColumnKinds(cl);
    match cl.body
    case RawColumn(_, raw) => RawIsNoNumber(S.WrapIdentifiers(c.Quotes(), raw.expression.text), raw.bindings);
    case QueryColumn(q) => AliasIsNoNumber(c, q.alias, [Sym("("), Inner(EmitSelect(c, env, q).sql), Sym(")")]);
    case AggregateColumn(aggregate, column, filter) =>
      CallIsNoNumber(c, aggregate, column, if filter.Some? then EmitGroup(c, env, filter.value) else Nothing);
    case _ =>
  }

  lemma {:induction false} ColumnKinds(cl: Clause)
    requires BuiltClause(cl) && Tag(cl) == Select
    ensures cl.body.Column? || cl.body.RawColumn? || cl.body.QueryColumn? || cl.body.AggregateColumn?
  {
  }

  lemma {:induction false} AliasIsNoNumber(c: Compiler, alias: string, before: seq<Token>)
    requires before != [] && !before[|before| - 1].Inner?
    ensures NoNumber(before + AliasText(c, alias))
  {
    hide ReadNumber;
    var all := before + AliasText(c, alias);
    if alias == "" { assert all == before; } else { assert all[|all| - 1] == Quoted(alias); }
  }

  lemma {:induction false} CallIsNoNumber(c: Compiler, aggregate: string, column: string, filter: Out)
    ensures NoNumber(AggregateColumnOut(c, aggregate, column, filter).sql)
  {
    hide ReadNumber, AliasText, S.SplitAlias, S.Upper;
    var (name, alias) := S.SplitAlias(column);
    var open := Sym(S.Upper(aggregate) + "(");
    if filter.sql == [] {
      AliasIsNoNumber(c, alias, [open, Ident(name), Sym(")")]);
    } else if c.SupportsFilter() {
      AliasIsNoNumber(c, alias, [open, Ident(name), Sym(") FILTER (WHERE")] + filter.sql + [Sym(")")]);
    } else {
      AliasIsNoNumber(c, alias, [open, Sym("CASE WHEN")] + filter.sql + [Sym("THEN"), Ident(name), Sym("END)")]);
    }
  }

  lemma {:induction false} ColumnsAreNoNumber(c: Compiler, env: Env, cs: seq<Clause>)
    requires WrittenColumns(cs) && forall cl <- cs :: BuiltClause(cl) && Tag(cl) == Select
    ensures NoNumber(Joined(EmitClauses(c, env, cs), ",").sql)
  {
    hide BuiltClause, EmitClause, ReadNumber;
    if cs != [] {
      ColumnIsNoNumber(c, env, cs[0]);
      ColumnsAreNoNumber(c, env, cs[1..]);
      JoinedNoNumber(EmitClauses(c, env, cs));
    }
  }

  lemma {:induction false} JoinedNoNumber(parts: seq<Out>)
    requires parts != [] && NoNumber(parts[0].sql) && NoNumber(Joined(parts[1..], ",").sql)
    ensures NoNumber(Joined(parts, ",").sql)
  {
    hide ReadNumber;
    if |parts| > 1 {
      var rest := Joined(parts[1..], ",").sql;
      var all := parts[0].sql + ([Sym(",")] + rest);
      assert Joined(parts, ",").sql == all;
      assert all[|all| - 1] == if rest == [] then Sym(",") else rest[|rest| - 1];
    }
  }

  // ----- clones that do not show a number ---------------------------------------------------------------

  /** What the clone is like for a dialect that does not see what is appended. */
  lemma {:induction false} UnseenSections(c: Compiler, q: Query, of: Component)
    requires !AppendsVisibly(c, q)
    ensures Components(RowNumbered(c, q).clauses, of, c.Engine()) ==
      if of in {Order, Limit, Offset} then [] else Components(q.clauses, of, c.Engine())
  {
    var bare := Without(q.clauses, {Order, Limit, Offset});
    var added := Stamp(q.engineScope, RowNumberColumns(c, q));
    ComponentsConcat(bare, added, of, c.Engine());
    Unseen(added, of, c.Engine());
    hide Components, Without, RowNumberColumns, Stamp;
    if of in {Order, Limit, Offset} { ComponentsDropped(q.clauses, {Order, Limit, Offset}, of, c.Engine()); }
    else { ComponentsWithout(q.clauses, {Order, Limit, Offset}, of, c.Engine()); }
    assert Components(bare, of, c.Engine()) + [] == Components(bare, of, c.Engine());
  }

  lemma {:induction false} CloneSections(c: Compiler, q: Query, of: Component)
    requires of !in {Order, Limit, Offset, Select}
    ensures Components(RowNumbered(c, q).clauses, of, c.Engine()) == Components(q.clauses, of, c.Engine())
  {
    hide RowNumbered, AppendsVisibly, Components;
    if AppendsVisibly(c, q) {
      NumberedSection(c, q, of);
      assert Components(q.clauses, of, c.Engine()) + [] == Components(q.clauses, of, c.Engine());
    } else {
      UnseenSections(c, q, of);
    }
  }

  /** A clone is printed as its head and its sections. */
  lemma {:induction false} ClonePrints(c: Compiler, env: Env, q: Query)
    requires Components(q.clauses, Combine, c.Engine()) == [] && env + q.variables == env
    ensures var n := RowNumbered(c, q); var columns := EmitClauses(c, env, Chosen(c, n.clauses, Select));
      EmitQuery(c, env, n).sql ==
        Start(c, n) + (HeadRest(c, n, columns).sql + (Windows.Body(c, env, n.clauses) + Ordering(c, n.clauses)))
  {
    var n := RowNumbered(c, q);
    CloneSections(c, q, Combine);
    NumberedSelf(c, q);
    NumberedVariables(c, q);
    hide RowNumbered, EmitQuery, Components, Start, HeadRest, Windows.Body, Ordering, EmitClauses, Chosen, Middle;
    UnpagedPrints(c, env, n);
    MiddleIs(c, env, n);
    PartsColumns(c, env, n.clauses);
  }

  lemma {:induction false} CloneIsBuilt(c: Compiler, q: Query)
    requires Built(q.clauses) && NamedJoins(Components(q.clauses, Joins, c.Engine()))
    ensures var n := RowNumbered(c, q); Built(n.clauses) && NamedJoins(Components(n.clauses, Joins, c.Engine()))
  {
    CloneSections(c, q, Joins);
    A.BuiltRowNumbered(c, q);
  }

  /** In aggregate shape, or where the number is not seen, the head of the clone does
      not end in a number. */
  lemma {:induction false} CloneHead(c: Compiler, env: Env, q: Query)
    requires Built(q.clauses) && WrittenColumns(Chosen(c, q.clauses, Select))
    requires !AppendsVisibly(c, q) || One(q.clauses, Aggregate, c.Engine()).Some?
    ensures var n := RowNumbered(c, q);
      NoNumber(HeadRest(c, n, EmitClauses(c, env, Chosen(c, n.clauses, Select))).sql)
  {
    var n := RowNumbered(c, q);
    CloneSections(c, q, Aggregate);
    hide RowNumbered, ReadNumber, AppendsVisibly;
    if One(q.clauses, Aggregate, c.Engine()).Some? {
      AggregateBody(c, q.clauses);
      AggregateIsNoNumber(c, n, EmitClauses(c, env, Chosen(c, n.clauses, Select)));
    } else {
      UnseenSections(c, q, Select);
      assert Chosen(c, n.clauses, Select) == Chosen(c, q.clauses, Select);
      BuiltColumns(c, q.clauses);
      hide Components, Chosen, One;
      ColumnsAreNoNumber(c, env, Chosen(c, q.clauses, Select));
      ColumnsHeadIs(c, n, EmitClauses(c, env, Chosen(c, q.clauses, Select)));
    }
  }

  lemma {:induction false} AggregateBody(c: Compiler, cs: seq<Clause>)
    requires Built(cs) && One(cs, Aggregate, c.Engine()).Some?
    ensures One(cs, Aggregate, c.Engine()).value.body.Aggregated?
  {
    var cl := One(cs, Aggregate, c.Engine()).value;
    var i :| 0 <= i < |cs| && cs[i] == cl;
    assert BuiltClause(cs[i]);
  }

  lemma {:induction false} AggregateIsNoNumber(c: Compiler, n: Query, columns: seq<Out>)
    requires var cl := One(n.clauses, Aggregate, c.Engine()); cl.Some? && cl.value.body.Aggregated?
    ensures NoNumber(HeadRest(c, n, columns).sql)
  {
    hide ReadNumber, AliasText, S.Upper;
    var Aggregated(kind, names) := One(n.clauses, Aggregate, c.Engine()).value.body;
    if |names| == 1 {
      AliasIsNoNumber(c, kind, [Sym(S.Upper(kind) + "(")] + (if n.distinct then [Sym("DISTINCT")] else []) + [Ident(names[0]), Sym(")")]);
    }
  }

  lemma {:induction false} ColumnsHeadIs(c: Compiler, n: Query, columns: seq<Out>)
    requires One(n.clauses, Aggregate, c.Engine()).None? && NoNumber(Joined(columns, ",").sql)
    ensures NoNumber(HeadRest(c, n, columns).sql)
  {
    hide ReadNumber, One, Joined;
  }

  /** Then nothing inside the wrapper is read as the number it filters on. */
  lemma {:induction false} CloneUnread(c: Compiler, env: Env, q: Query)
    requires Built(q.clauses) && NamedJoins(Components(q.clauses, Joins, c.Engine()))
    requires Components(q.clauses, Combine, c.Engine()) == [] && env + q.variables == env
    requires WrittenColumns(Chosen(c, q.clauses, Select))
    requires !AppendsVisibly(c, q) || One(q.clauses, Aggregate, c.Engine()).Some?
    ensures ReadNumbered(EmitQuery(c, env, RowNumbered(c, q)).sql).None?
  {
    var n := RowNumbered(c, q);
    hide RowNumbered, EmitQuery, Start, HeadRest, Windows.Body, Ordering, EmitClauses, Chosen, Components, One, AppendsVisibly, NoNumber,
      ReadNumbered, Built, NamedJoins, Quiet, SafeHead, NoPage, WrittenColumns;
    ClonePrints(c, env, q);
    CloneIsBuilt(c, q);
    CloneHead(c, env, q);
    BodyHasNoPage(c, env, n.clauses);
    StartIs(c, n);
    var more := Windows.Body(c, env, n.clauses) + Ordering(c, n.clauses);
    HeadRestIsSafe(c, env, n, more);
    NumberUnread(Start(c, n), HeadRest(c, n, EmitClauses(c, env, Chosen(c, n.clauses, Select))).sql, more);
  }

  /** An empty projection does not help a visible number. */
  lemma {:induction false} BlankUnread(c: Compiler, outer: Env, q: Query)
    requires Components(q.clauses, Combine, c.Engine()) == [] && c.dialect == SqlServer(true)
    requires NamedJoins(Components(q.clauses, Joins, c.Engine()))
    requires AppendsVisibly(c, q) && One(q.clauses, Aggregate, c.Engine()).None? && !PrintsColumns(c, outer, q)
    ensures ReadNumbered(EmitQuery(c, outer + q.variables, RowNumbered(c, q)).sql).None?
  {
    hide EmitQuery, RowNumbered, ReadNumbered, One, NamedJoins, Projection, Windows.Body, NoPage, Start, Components, PrintsColumns,
      AppendsVisibly, NumberColumnText;
    var env := outer + q.variables;
    assert env + q.variables == env;
    NumberedPrints(c, env, q);
    NumberedStart(c, q);
    StartIs(c, q);
    BodyHasNoPage(c, env, q.clauses);
    BlankProjection(c, outer, q);
    LoneNumberUnread(Start(c, q), NumberColumnText(c, q.clauses), Windows.Body(c, env, q.clauses));
  }

  lemma {:induction false} BlankProjection(c: Compiler, outer: Env, q: Query)
    requires !PrintsColumns(c, outer, q)
    ensures Projection(c, outer + q.variables, q.clauses) == []
  {
    SomeEmitted(c, outer + q.variables, Chosen(c, q.clauses, Select));
    hide EmitClauses, Joined, Chosen;
  }

  // ----- the main result --------------------------------------------------------------------------------

  /** The form that numbers rows in a clone needs a clone whose number is seen, that is
      not in aggregate shape and projects something. */
  predicate Numberable(c: Compiler, outer: Env, q: Query) {
    Recompiled(c, q) ==> AppendsVisibly(c, q) && One(q.clauses, Aggregate, c.Engine()).None? && PrintsColumns(c, outer, q)
  }

  /** The query whose rows are paged: the form that numbers rows does so before
      DISTINCT. */
  function PagedSource(c: Compiler, q: Query): Query { Unpaged(if Recompiled(c, q) then Undistinct(q) else q) }

  /** For every dialect: the printed text of a query, read back.  It returns the window
      that the limit and the offset describe of the rows that the query without them
      returns, exactly when the number is there to filter on and no bound wraps
      around. */
  lemma {:induction false} PrintedPageIsWindow<T>(c: Compiler, outer: Env, q: Query, D: Database<T>)
    requires Built(q.clauses) && NamedJoins(Components(q.clauses, Joins, c.Engine()))
    requires WrittenColumns(Chosen(c, q.clauses, Select)) && Components(q.clauses, Combine, c.Engine()) == []
    requires P.Sized(LimitOf(c, q.clauses), OffsetOf(c, q.clauses))
    ensures var limit, offset := LimitOf(c, q.clauses), OffsetOf(c, q.clauses);
      var rows := D(Starred(EmitQuery(c, outer, PagedSource(c, q)).sql));
      var page := ReadRows(c, D, EmitQuery(c, outer, q).sql);
      && page == (if Numberable(c, outer, q) then Some(P.Returned(c.dialect, limit, offset, rows)) else None)
      && (page == Some(P.Window(limit, offset, rows)) <==>
            Numberable(c, outer, q) && P.WindowFits(c.dialect, limit, offset, |rows|))
  {
    hide EmitQuery, ReadRows, Starred, Built, NamedJoins, Components, LimitOf, OffsetOf, One, PrintsColumns, AppendsVisibly,
      P.Returned, P.Window, P.WindowFits, WrittenColumns;
    P.FitsIsExact(c.dialect, LimitOf(c, q.clauses), OffsetOf(c, q.clauses), D(Starred(EmitQuery(c, outer, PagedSource(c, q)).sql)));
    if Recompiled(c, q) {
      if Numberable(c, outer, q) { RowNumberPageReads(c, outer, q, D); } else { PageUnread(c, outer, q, D); }
    } else if c.dialect == Oracle(true) {
      RownumPageReads(c, outer, q, D);
    } else {
      SectionPageReads(c, outer, q, D);
    }
  }

  lemma {:induction false} PageUnread<T>(c: Compiler, outer: Env, q: Query, D: Database<T>)
    requires Built(q.clauses) && NamedJoins(Components(q.clauses, Joins, c.Engine()))
    requires WrittenColumns(Chosen(c, q.clauses, Select)) && Components(q.clauses, Combine, c.Engine()) == []
    requires P.Sized(LimitOf(c, q.clauses), OffsetOf(c, q.clauses))
    requires Recompiled(c, q) && !Numberable(c, outer, q)
    ensures ReadRows(c, D, EmitQuery(c, outer, q).sql) == None
  {
    hide EmitQuery, RowNumbered, RowNumberWrap, Starred, P.RowNumberRows, P.Numbers, P.Plain, P.Deduped, ReadNumbered,
      LimitOf, OffsetOf, Components, One, Built, NamedJoins, PrintsColumns, AppendsVisibly, P.OpensPlain,
      P.Filters, P.AtLeast, P.InBetween, P.Binds, WrittenColumns, Chosen;
    var env := outer + q.variables;
    assert env + q.variables == env;
    EmitRecompiled(c, outer, q);
    P.RowNumberTexts(EmitQuery(c, env, RowNumbered(c, q)), LimitOf(c, q.clauses), OffsetOf(c, q.clauses));
    if AppendsVisibly(c, q) && One(q.clauses, Aggregate, c.Engine()).None? {
      BlankUnread(c, outer, q);
    } else {
      CloneUnread(c, env, q);
    }
  }

  /** With DISTINCT, the form that numbers rows returns the window of the rows before
      deduplication: of the same query without DISTINCT. */
  lemma {:induction false} DistinctPageIsOfAllRows<T>(c: Compiler, outer: Env, q: Query, D: Database<T>)
    requires Built(q.clauses) && NamedJoins(Components(q.clauses, Joins, c.Engine()))
    requires WrittenColumns(Chosen(c, q.clauses, Select)) && Components(q.clauses, Combine, c.Engine()) == []
    requires P.Sized(LimitOf(c, q.clauses), OffsetOf(c, q.clauses))
    requires Recompiled(c, q) && Numberable(c, outer, q) && q.distinct
    ensures ReadRows(c, D, EmitQuery(c, outer, q).sql) ==
      Some(P.Returned(c.dialect, LimitOf(c, q.clauses), OffsetOf(c, q.clauses),
                      D(Starred(EmitQuery(c, outer, Unpaged(Undistinct(q))).sql))))
  {
    hide EmitQuery, ReadRows, Starred, Built, NamedJoins, Components, LimitOf, OffsetOf, One, PrintsColumns, AppendsVisibly,
      P.Returned, P.Window, P.WindowFits, WrittenColumns;
    PrintedPageIsWindow(c, outer, q, D);
  }

  // ----- whole runs ----------------------------------------------------------------------------------------

  /** For whatever program built the query, and for clones taken in a For block of it. */
  lemma {:induction false} RunsPage<T>(c: Compiler, outer: Env, before: seq<B.Step>, engine: string, inside: seq<B.Step>, D: Database<T>)
    requires B.AllLegal(before) && B.AllLegal(inside)
    requires var q := B.CloneWithin(before, engine, inside);
      Components(q.clauses, Combine, c.Engine()) == [] && P.Sized(LimitOf(c, q.clauses), OffsetOf(c, q.clauses))
    ensures var q := B.CloneWithin(before, engine, inside);
      var limit, offset := LimitOf(c, q.clauses), OffsetOf(c, q.clauses);
      var rows := D(Starred(EmitQuery(c, outer, PagedSource(c, q)).sql));
      (ReadRows(c, D, EmitQuery(c, outer, q).sql) == Some(P.Window(limit, offset, rows)) <==>
        Numberable(c, outer, q) && P.WindowFits(c.dialect, limit, offset, |rows|))
  {
    hide EmitQuery, ReadRows, Starred, Built, LimitOf, OffsetOf, One, PrintsColumns, AppendsVisibly, P.Returned, P.Window,
      P.WindowFits, B.CloneWithin, B.AllLegal;
    var q := B.CloneWithin(before, engine, inside);
    Runs.ClonesAreBuilt(before, engine, inside);
    PrintedPageIsWindow(c, outer, q, D);
  }

  /** From the second row of t on, cloned in a block for MySQL: the wrapper that SQL
      Server's legacy form prints filters on a number that nothing inside projects,
      while the rows asked for are there. */
  lemma {:induction false} StampedPageIsUnread<T>(outer: Env, extra: set<string>, D: Database<T>)
    ensures var before := [B.Put(FromTable("t")), B.Put(OffsetBy(1))];
      var q, c := B.CloneWithin(before, "mysql", []), Compiler(SqlServer(true), extra);
      var rows := D(Starred(EmitQuery(c, outer, PagedSource(c, q)).sql));
      && B.AllLegal(before)
      && ReadRows(c, D, EmitQuery(c, outer, q).sql) == None
      && P.Window(LimitOf(c, q.clauses), OffsetOf(c, q.clauses), rows) == P.Skip(rows, 1)
  {
    hide EmitQuery, ReadRows, Starred, P.Returned, P.Window, P.WindowFits, P.Skip, B.CloneWithin, B.AllLegal, B.Legal, Components,
      One, Chosen, LimitOf, OffsetOf, PrintsColumns, Built, PagedSource;
    var before := [B.Put(FromTable("t")), B.Put(OffsetBy(1))];
    var q, c := B.CloneWithin(before, "mysql", []), Compiler(SqlServer(true), extra);
    SkippedIs();
    FromAndOffset(c, Clause("", FromTable("t")), Clause("", OffsetBy(1)));
    Runs.ClonesAreBuilt(before, "mysql", []);
    PrintedPageIsWindow(c, outer, q, D);
    WindowSkips(D(Starred(EmitQuery(c, outer, PagedSource(c, q)).sql)));
  }

  lemma {:induction false} WindowSkips<T>(rows: seq<T>)
    ensures P.Window(0, 1, rows) == P.Skip(rows, 1)
  {
  }

  lemma {:induction false} FromAndOffset(c: Compiler, from: Clause, offset: Clause)
    requires Tag(from) == Ast.From && offset.body == OffsetBy(1) && from.engine == offset.engine == ""
    ensures var cs := [from, offset]; LimitOf(c, cs) == 0 && OffsetOf(c, cs) == 1 && Components(cs, Combine, c.Engine()) == []
  {
    assert [from, offset][1..] == [offset] && [offset][1..] == [];
    assert Components([offset], Limit, c.Engine()) == [] && Components([offset], Offset, c.Engine()) == [offset];
    assert Components([offset], Combine, c.Engine()) == [];
    assert Components([from, offset], Offset, c.Engine()) == [offset] && Components([from, offset], Limit, c.Engine()) == [];
  }

  lemma {:induction false} SkippedIs()
    ensures var before := [B.Put(FromTable("t")), B.Put(OffsetBy(1))];
      var q := B.CloneWithin(before, "mysql", []);
      && B.AllLegal(before) && B.AllLegal([])
      && q.clauses == [Clause("", FromTable("t")), Clause("", OffsetBy(1))] && q.engineScope == "mysql" && !q.distinct
  {
    B.TwoPuts(FromTable("t"), OffsetBy(1), "mysql");
  }
}
