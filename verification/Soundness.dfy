/** Validation makes the second pass total: whatever the compiler accepts is
    printed without a gap, although the second pass runs on rewritten aggregates,
    EXISTS copies, recompiled clones and hoisted CTE bodies. */
module Soundness {
  import opened Ast
  import opened Dialects
  import opened Emit
  import opened Placeholders
  import opened Alignment
  import opened Statements
  import opened StatementAlignment
  import opened Validation
  import C = Ctes
  import S = Strings

  // ----- fragments ------------------------------------------------------------------------

  lemma {:induction false} ParameterClean(env: Env, v: Value)
    requires v.Variable? ==> v.name in env
    ensures Clean(Parameter(env, v).sql)
  {
  }

  lemma {:induction false} ParameterizeClean(env: Env, values: seq<Value>)
    requires ValuesOk(values, env)
    ensures Clean(Parameterize(env, values).sql)
  {
    var parts := ParameterParts(env, values);
    forall p | p in parts ensures Clean(p.sql) {
      var i :| 0 <= i < |parts| && parts[i] == p;
      assert values[i] in values;
    }
    JoinedClean(parts, ",");
  }

  lemma {:induction false} ConnectClean(cs: seq<Clause>, parts: seq<Out>, started: bool)
    requires |cs| == |parts| && AllClean(parts)
    ensures Clean(Connect(cs, parts, started).sql)
  {
    if cs != [] {
      ConnectClean(cs[1..], parts[1..], started || parts[0].sql != []);
    }
  }

  lemma {:induction false} CleanCat(a: Out, b: Out)
    requires Clean(a.sql) && Clean(b.sql)
    ensures Clean(Cat(a, b).sql)
  {
  }

  lemma {:induction false} CleanAround(before: seq<Token>, o: Out, after: seq<Token>)
    requires Clean(before) && Clean(o.sql) && Clean(after)
    ensures Clean(before + o.sql + after)
  {
  }

  lemma {:induction false} CleanText(ts: seq<Token>)
    requires Fixed(ts)
    ensures Clean(ts)
  {
  }

  lemma {:induction false} OperatorClean(c: Compiler, op: string)
    requires c.Allows(op)
    ensures Fixed([OperatorToken(c, op)])
  {
  }

  lemma {:induction false} NegatedClean(not: bool, o: Out)
    requires Clean(o.sql)
    ensures Clean(Negated(not, o).sql)
  {
  }

  lemma {:induction false} LikeClean(c: Compiler, column: string, pattern: string, text: string, caseSensitive: bool, escape: string)
    ensures Clean(LikeOut(c, column, pattern, text, caseSensitive, escape).sql)
  {
    BuiltinLike(c);
    hide S.Lower, Wildcards;
  }

  lemma {:induction false} DateClean(c: Compiler, env: Env, part: string, column: string, op: string, v: Value)
    requires c.Allows(op) && (v.Variable? ==> v.name in env)
    ensures Clean(DateOut(c, env, part, column, op, v).sql)
  {
    hide DateFrame;
    var f := DateFrame(c, part, v);
    ParameterClean(env, v);
    OperatorClean(c, op);
    CleanText(Maybe(f.columnBefore) + [Ident(column)] + Maybe(f.columnAfter) + [OperatorToken(c, op)] + Maybe(f.valueBefore));
    CleanAround(Maybe(f.columnBefore) + [Ident(column)] + Maybe(f.columnAfter) + [OperatorToken(c, op)] + Maybe(f.valueBefore),
                Parameter(env, v), Maybe(f.valueAfter));
  }

  lemma {:induction false} ShapeClean(c: Compiler, env: Env, cl: Clause, inner: Out)
    requires cl.body.Condition? && ConditionOk(c, cl) && ValuesOk(ValuesOf(cl), env)
    requires cl.body.shape.RawCondition? ==> RawSettled(cl.body.shape.raw)
    requires Clean(inner.sql)
    ensures Clean(ShapeOut(c, env, cl.body.not, cl.body.shape, inner).sql)
  {
    var not := cl.body.not;
    hide Clean, Fixed, Parameter, LikeOut, DateOut, RawOut, OperatorToken, Parameterize, Negated;
    match cl.body.shape
    case Basic(column, op, value) =>
      assert value in ValuesOf(cl);
      ParameterClean(env, value);
      ComparisonClean(c, column, op);
      CleanCat(Text([Ident(column), OperatorToken(c, op)]), Parameter(env, value));
      NegatedClean(not, Cat(Text([Ident(column), OperatorToken(c, op)]), Parameter(env, value)));
    case RawCondition(raw) => RawClean(c, raw);
    case IsNull(_) => KeywordsClean(c, cl.body.shape, not);
    case IsBool(_, _) => KeywordsClean(c, cl.body.shape, not);
    case TwoColumns(_, _, _) => KeywordsClean(c, cl.body.shape, not);
    case Between(column, lower, higher) =>
      assert lower in ValuesOf(cl) && higher in ValuesOf(cl);
      ParameterClean(env, lower);
      ParameterClean(env, higher);
      WordsClean([Sym("AND")]);
      WordsClean([Ident(column), Sym(if not then "NOT BETWEEN" else "BETWEEN")]);
      CleanCat(Word("AND"), Parameter(env, higher));
      CleanCat(Parameter(env, lower), Cat(Word("AND"), Parameter(env, higher)));
      CleanCat(Text([Ident(column), Sym(if not then "NOT BETWEEN" else "BETWEEN")]),
               Cat(Parameter(env, lower), Cat(Word("AND"), Parameter(env, higher))));
    case In(column, values) =>
      ParameterizeClean(env, values);
      WordsClean([Sym(")")]);
      WordsClean([Sym(if not then "1 = 1" else "1 = 0")]);
      WordsClean([Ident(column), Sym(if not then "NOT IN" else "IN"), Sym("(")]);
      CleanCat(Parameterize(env, values), Word(")"));
      CleanCat(Text([Ident(column), Sym(if not then "NOT IN" else "IN"), Sym("(")]),
               Cat(Parameterize(env, values), Word(")")));
    case InQuery(column, _) => EmbedClean([Ident(column), Sym(if not then "NOT IN" else "IN")], inner.sql);
    case SubQuery(_, op, value) =>
      assert value in ValuesOf(cl);
      ParameterClean(env, value);
      SubQueryClean(c, inner, op);
      CleanCat(Out([Inner(inner.sql), OperatorToken(c, op)], inner.args), Parameter(env, value));
    case Exists(_) => EmbedClean([Sym(if not then "NOT EXISTS" else "EXISTS")], inner.sql);
    case Nested(_) => ParenthesesClean(not, inner.sql);
    case Like(column, pattern, text, caseSensitive, escape) =>
      LikeClean(c, column, pattern, text, caseSensitive, escape);
      NegatedClean(not, LikeOut(c, column, pattern, text, caseSensitive, escape));
    case DatePart(part, column, op, value) =>
      assert value in ValuesOf(cl);
      DateClean(c, env, part, column, op, value);
      NegatedClean(not && !DropsNot(c, part), DateOut(c, env, part, column, op, value));
  }

  lemma {:induction false} WordsClean(ts: seq<Token>)
    requires forall t <- ts :: t.Sym? || t.Ident?
    ensures Clean(ts)
  {
  }

  lemma {:induction false} ComparisonClean(c: Compiler, column: string, op: string)
    requires c.Allows(op)
    ensures Clean([Ident(column), OperatorToken(c, op)])
  {
  }

  lemma {:induction false} KeywordsClean(c: Compiler, shape: Shape, not: bool)
    requires shape.IsNull? || shape.IsBool? || (shape.TwoColumns? && c.Allows(shape.operator))
    ensures Clean(ShapeOut(c, map[], not, shape, Nothing).sql)
  {
  }

  lemma {:induction false} SubQueryClean(c: Compiler, inner: Out, op: string)
    requires c.Allows(op) && Clean(inner.sql)
    ensures Clean([Inner(inner.sql), OperatorToken(c, op)])
  {
  }

  lemma {:induction false} EmbedClean(before: seq<Token>, ts: seq<Token>)
    requires (forall t <- before :: t.Sym? || t.Ident?) && Clean(ts)
    ensures Clean(before + [Inner(ts)])
    ensures |before| == 2 ==> Clean([before[0], before[1], Inner(ts)])
    ensures |before| == 1 ==> Clean([before[0], Inner(ts)])
  {
  }

  lemma {:induction false} ParenthesesClean(not: bool, ts: seq<Token>)
    requires Clean(ts)
    ensures Clean((if not then [KNot] else []) + [LParen] + ts + [RParen])
  {
  }

  /** "like" and "ilike" are always allowed. */
  lemma {:induction false} BuiltinLike(c: Compiler)
    ensures c.Allows("like") && c.Allows("ilike")
  {
    assert S.Lower("like") == "like";
    assert S.Lower("ilike") == "ilike";
  }

  lemma {:induction false} RowClean(c: Compiler, columns: seq<string>, row: seq<Value>)
    requires ValuesOk(row, map[])
    ensures Clean(RowCells(c, columns, row))
    decreases columns
  {
    if columns != [] {
      if row != [] { assert row[0] in row; }
      RowClean(c, columns[1..], if row == [] then [] else row[1..]);
    }
  }

  lemma {:induction false} TableRowsClean(c: Compiler, columns: seq<string>, rows: seq<seq<Value>>)
    requires ValuesOk(Flat(rows), map[])
    ensures AllClean(TableRows(c, columns, rows))
  {
    if rows != [] {
      assert forall v <- rows[0] :: v in Flat(rows);
      assert forall v <- Flat(rows[1..]) :: v in Flat(rows);
      RowClean(c, columns, rows[0]);
      TableRowsClean(c, columns, rows[1..]);
    }
  }

  lemma {:induction false} NamesClean(columns: seq<string>)
    ensures Clean(ColumnNames(columns))
  {
    if columns != [] { NamesClean(columns[1..]); }
  }

  lemma {:induction false} TableClean(c: Compiler, columns: seq<string>, rows: seq<seq<Value>>)
    requires ValuesOk(Flat(rows), map[])
    ensures Clean(TableOut(c, columns, rows).sql)
  {
    TableRowsClean(c, columns, rows);
    JoinedClean(TableRows(c, columns, rows), ",");
    JoinedClean(TableRows(c, columns, rows), "UNION ALL");
    NamesClean(columns);
  }

  // ----- rewritten scopes --------------------------------------------------------------------

  /** Dropping sections other than FROM and adding harmless clauses keeps a scope
      in order. */
  lemma {:induction false} RewrittenScope(c: Compiler, cs: seq<Clause>, dropped: set<Component>, added: seq<Clause>, env: Env)
    requires ScopeOk(c, cs, false, env) && From !in dropped
    requires forall cl <- added :: Tag(cl) != From && ClauseOk(c, cl, env)
    ensures ScopeOk(c, Without(cs, dropped) + added, false, env)
  {
    ComponentsConcat(Without(cs, dropped), added, From, c.Engine());
    ComponentsWithout(cs, dropped, From, c.Engine());
    NoComponents(added, From, c.Engine());
    assert Components(cs, From, c.Engine()) + [] == Components(cs, From, c.Engine());
  }

  lemma {:induction false} ExistsCopyOk(c: Compiler, q: Query, env: Env)
    requires ScopeOk(c, q.clauses, false, env)
    ensures ScopeOk(c, ExistsCopy(q).clauses, false, env)
  {
    hide ScopeOk;
    RewrittenScope(c, q.clauses, {Select}, [Clause("", RawColumn(Select, Raw(Written("1"), [])))], env);
  }

  lemma {:induction false} RowNumberedOk(c: Compiler, q: Query, env: Env)
    requires ScopeOk(c, q.clauses, false, env)
    ensures ScopeOk(c, RowNumbered(c, q).clauses, false, env)
  {
    hide ScopeOk, ClauseOk;
    var added := Stamp(q.engineScope, RowNumberColumns(c, q));
    forall cl | cl in added ensures Tag(cl) != From && ClauseOk(c, cl, env) {
      PlainColumnOk(c, cl, env);
    }
    RewrittenScope(c, q.clauses, {Order, Limit, Offset}, added, env);
  }

  lemma {:induction false} PlainColumnOk(c: Compiler, cl: Clause, env: Env)
    requires (cl.body.Column? || cl.body.RawColumn?) && cl.body.section == Select
    ensures ClauseOk(c, cl, env)
  {
  }

  // ----- the descent ------------------------------------------------------------------------------

  lemma {:induction false} QueryClean(c: Compiler, outer: Env, q: Query)
    requires Built(q.clauses) && ScopeOk(c, q.clauses, false, outer + q.variables)
    ensures Clean(EmitQuery(c, outer, q).sql)
    decreases QuerySize(q), 2
  {
    hide Clean, ScopeOk, Built, LimitOf, OffsetOf, EmitParts, RowNumbered, Assemble, PartsCleanly, RowNumberWrap, RownumWrap;
    var env := outer + q.variables;
    if Recompiled(c, q) {
      var clone := RowNumbered(c, q);
      RowNumberedSize(c, q);
      BuiltRowNumbered(c, q);
      RowNumberedOk(c, q, env);
      RowNumberedKeeps(c, q);
      assert env + clone.variables == env;
      QueryClean(c, env, clone);
      RowNumberClean(EmitQuery(c, env, clone), LimitOf(c, q.clauses), OffsetOf(c, q.clauses));
    } else {
      var p := EmitParts(c, env, q.clauses);
      PartsClean(c, env, q.clauses, false);
      BuiltOrders(c, q.clauses);
      AssembleClean(c, q, p);
      RownumClean(Assemble(c, q, p), LimitOf(c, q.clauses), OffsetOf(c, q.clauses));
    }
  }

  lemma {:induction false} RowNumberedKeeps(c: Compiler, q: Query)
    ensures RowNumbered(c, q).variables == q.variables
  {
  }

  lemma {:induction false} RowNumberClean(o: Out, limit: int, offset: int)
    requires Clean(o.sql)
    ensures Clean(RowNumberWrap(o, limit, offset).sql)
  {
  }

  lemma {:induction false} RownumClean(o: Out, limit: int, offset: int)
    requires Clean(o.sql)
    ensures Clean(RownumWrap(o, limit, offset).sql)
  {
  }

  predicate PartsCleanly(p: Parts) {
    && AllClean(p.columns) && AllClean(p.table) && AllClean(p.joins) && AllClean(p.wheres)
    && AllClean(p.groups) && AllClean(p.havings) && AllClean(p.combines)
  }

  lemma {:induction false} AssembleClean(c: Compiler, q: Query, p: Parts)
    requires PartsFit(c, q.clauses, p) && PartsCleanly(p) && p.table != []
    requires forall cl <- Components(q.clauses, Order, c.Engine()) :: cl.body.OrderRaw? ==> RawSettled(cl.body.raw)
    ensures Clean(Assemble(c, q, p).sql)
  {
    hide Components, One;
    HeadClean(c, q, p.columns);
    JoinedClean(p.joins, "");
    ConnectClean(Chosen(c, q.clauses, Where), p.wheres, false);
    JoinedClean(p.groups, ",");
    ConnectClean(Chosen(c, q.clauses, Having), p.havings, false);
    OrdersClean(c, Components(q.clauses, Order, c.Engine()));
    JoinedClean(p.combines, "");
    LimitClean(c, Components(q.clauses, Order, c.Engine()) != [], LimitOf(c, q.clauses), OffsetOf(c, q.clauses));
    hide HeadSection, Joined, OrdersOut, OrderParts, LimitSection, Connect, Chosen;
  }

  lemma {:induction false} HeadClean(c: Compiler, q: Query, columns: seq<Out>)
    requires AllClean(columns)
    ensures Clean(HeadSection(c, q, columns).sql)
  {
    hide Clean, AllClean, TopSection, Joined, AggregateHead, SelectHead;
    var top := TopSection(c, LimitOf(c, q.clauses), OffsetOf(c, q.clauses));
    TopClean(c, LimitOf(c, q.clauses), OffsetOf(c, q.clauses));
    var cl := One(q.clauses, Aggregate, c.Engine());
    if cl.Some? && cl.value.body.Aggregated? {
      AggregateHeadClean(c, cl.value.body.kind, cl.value.body.columns, q.distinct, top);
    } else {
      SelectHeadClean(columns, q.distinct, top);
    }
  }

  lemma {:induction false} TopClean(c: Compiler, limit: int, offset: int)
    ensures Clean(TopSection(c, limit, offset).sql)
  {
  }

  lemma {:induction false} AggregateHeadClean(c: Compiler, kind: string, targets: seq<string>, distinct: bool, top: Out)
    requires Clean(top.sql)
    ensures Clean(AggregateHead(c, kind, targets, distinct, top).sql)
  {
  }

  lemma {:induction false} SelectHeadClean(columns: seq<Out>, distinct: bool, top: Out)
    requires AllClean(columns) && Clean(top.sql)
    ensures Clean(SelectHead(columns, distinct, top).sql)
  {
    JoinedClean(columns, ",");
  }

  lemma {:induction false} LimitClean(c: Compiler, ordered: bool, limit: int, offset: int)
    ensures Clean(LimitSection(c, ordered, limit, offset).sql)
  {
    StandardLimitClean(limit, offset);
    FetchClean(ordered, "ORDER BY (SELECT 0)", limit, offset, limit <= 0);
    FetchClean(ordered, "ORDER BY (SELECT 0 FROM DUAL)", limit, offset, limit == 0);
    CeilingClean("LIMIT 18446744073709551615 OFFSET", offset);
    CeilingClean("LIMIT -1 OFFSET", offset);
    CleanText([]);
    hide Clean, StandardLimit, FetchForm;
  }

  lemma {:induction false} CeilingClean(text: string, offset: int)
    ensures Clean(Cat(Word(text), Bind(offset)).sql)
  {
  }

  lemma {:induction false} StandardLimitClean(limit: int, offset: int)
    ensures Clean(StandardLimit(limit, offset).sql)
  {
  }

  lemma {:induction false} FetchClean(ordered: bool, filler: string, limit: int, offset: int, bare: bool)
    ensures Clean(FetchForm(ordered, filler, limit, offset, bare).sql)
  {
  }

  lemma {:induction false} PartsClean(c: Compiler, env: Env, cs: seq<Clause>, group: bool)
    requires Built(cs) && ScopeOk(c, cs, group, env)
    ensures PartsCleanly(EmitParts(c, env, cs)) && (!group ==> EmitParts(c, env, cs).table != [])
    decreases ClausesSize(cs) + 1, 2
  {
    assert !group ==> Chosen(c, cs, From) != [];
    hide ScopeOk, Clean, EmitClauses, Chosen;
    SectionClean(c, env, cs, group, Select);
    SectionClean(c, env, cs, group, From);
    SectionClean(c, env, cs, group, Joins);
    SectionClean(c, env, cs, group, Where);
    SectionClean(c, env, cs, group, Group);
    SectionClean(c, env, cs, group, Having);
    SectionClean(c, env, cs, group, Combine);
  }

  lemma {:induction false} SectionClean(c: Compiler, env: Env, cs: seq<Clause>, group: bool, of: Component)
    requires Built(cs) && ScopeOk(c, cs, group, env)
    ensures AllClean(EmitClauses(c, env, Chosen(c, cs, of)))
    decreases ClausesSize(cs), 4
  {
    BuiltChosen(c, cs, of);
    ClausesClean(c, env, Chosen(c, cs, of));
  }

  lemma {:induction false} ClausesClean(c: Compiler, env: Env, cs: seq<Clause>)
    requires Built(cs) && forall cl <- cs :: Visible(cl, c.Engine()) && ClauseOk(c, cl, env)
    ensures AllClean(EmitClauses(c, env, cs))
    decreases ClausesSize(cs), 3
  {
    if cs != [] {
      BuiltSubset(cs, cs[1..]);
      ClauseClean(c, env, cs[0]);
      ClausesClean(c, env, cs[1..]);
    }
  }

  lemma {:induction false} SelectClean(c: Compiler, outer: Env, q: Query)
    requires Built(q.clauses) && ScopeOk(c, q.clauses, false, outer + q.variables)
    ensures Clean(EmitSelect(c, outer, q).sql)
    decreases QuerySize(q), 3
  {
    QueryClean(c, outer, q);
    hide Built, ScopeOk, EmitQuery, Clean;
    CommentedClean(EmitQuery(c, outer, q), q.comment);
  }

  lemma {:induction false} CommentedClean(o: Out, comment: string)
    requires Clean(o.sql)
    ensures Clean(Commented(o, comment).sql)
  {
  }

  lemma {:induction false} GroupClean(c: Compiler, env: Env, group: Query)
    requires Built(group.clauses) && ScopeOk(c, group.clauses, true, env)
    ensures Clean(EmitGroup(c, env, group).sql)
    decreases QuerySize(group), 2
  {
    var cs := Components(group.clauses, Where, c.Engine());
    BuiltChosen(c, group.clauses, Where);
    ClausesClean(c, env, cs);
    ConnectClean(cs, EmitClauses(c, env, cs), false);
  }

  /** What acceptance of a clause says about the scopes it embeds. */
  lemma {:induction false} EmbeddedScopes(c: Compiler, cl: Clause, env: Env)
    requires ClauseProblems(c, cl, env) == []
    ensures SubQueryOf(cl).Some? ==>
      ScopeOk(c, SubQueryOf(cl).value.clauses, false, SubEnv(cl, env, SubQueryOf(cl).value))
    ensures GroupOf(cl).Some? ==> ScopeOk(c, GroupOf(cl).value.clauses, true, env)
    ensures JoinOf(cl).Some? ==> ScopeOk(c, JoinOf(cl).value, true, env)
  {
    hide ScopeProblems, ScopeOk;
    if SubQueryOf(cl).Some? {
      var sub := SubQueryOf(cl).value;
      ScopeAccepted(c, sub.clauses, false, SubEnv(cl, env, sub));
    }
    if GroupOf(cl).Some? { ScopeAccepted(c, GroupOf(cl).value.clauses, true, env); }
    if JoinOf(cl).Some? { ScopeAccepted(c, JoinOf(cl).value, true, env); }
  }

  lemma {:induction false} DerivedClean(c: Compiler, env: Env, q: Query)
    requires Built(q.clauses) && ScopeOk(c, q.clauses, false, env + q.variables)
    ensures Clean(Embedded(c, EmitSelect(c, env, q), q.alias).sql)
    decreases QuerySize(q), 4
  {
    hide Embedded, EmitSelect;
    SelectClean(c, env, q);
    EmbeddedClean(c, EmitSelect(c, env, q), q.alias);
  }

  lemma {:induction false} FilteredClean(c: Compiler, env: Env, aggregate: string, column: string, filter: Option<Query>)
    requires filter.Some? ==> Built(filter.value.clauses) && ScopeOk(c, filter.value.clauses, true, env)
    ensures Clean(AggregateColumnOut(c, aggregate, column, if filter.Some? then EmitGroup(c, env, filter.value) else Nothing).sql)
    decreases if filter.Some? then QuerySize(filter.value) else 0, 3
  {
    hide AggregateColumnOut, EmitGroup, Clean;
    CleanText([]);
    if filter.Some? { GroupClean(c, env, filter.value); }
    AggregateColumnClean(c, aggregate, column, if filter.Some? then EmitGroup(c, env, filter.value) else Nothing);
  }

  lemma {:induction false} JoinScopeClean(c: Compiler, env: Env, kind: string, cs: seq<Clause>)
    requires Built(cs) && ScopeOk(c, cs, true, env) && Chosen(c, cs, From) != []
    ensures Clean(JoinOut(kind, EmitClauses(c, env, Chosen(c, cs, From)), Chosen(c, cs, Where),
                          EmitClauses(c, env, Chosen(c, cs, Where))).sql)
    decreases ClausesSize(cs), 5
  {
    hide JoinOut, Clean, Chosen, ScopeOk, Built;
    SectionClean(c, env, cs, true, From);
    SectionClean(c, env, cs, true, Where);
    JoinClean(kind, EmitClauses(c, env, Chosen(c, cs, From)), Chosen(c, cs, Where),
              EmitClauses(c, env, Chosen(c, cs, Where)));
  }

  lemma {:induction false} EmbeddingClean(c: Compiler, env: Env, cl: Clause)
    requires SubQueryOf(cl).Some? && !cl.body.Condition? && !cl.body.InsertQuery?
    requires var q := SubQueryOf(cl).value; Built(q.clauses) && ScopeOk(c, q.clauses, false, SubEnv(cl, env, q))
    ensures Clean(EmitClause(c, env, cl).sql)
    decreases ClauseSize(cl), 1
  {
    hide ScopeOk, Built, Clean, Embedded, CombineOut, CteOut, EmitSelect, EmitGroup, EmitClauses, EmitShape;
    var q := SubQueryOf(cl).value;
    if cl.body.CombineQuery? {
      SelectClean(c, env, q);
      CombineClean(cl.body.operation, cl.body.all, EmitSelect(c, env, q));
    } else if cl.body.QueryCte? {
      RootEnv(q.variables);
      SelectClean(c, map[], q);
      CteClean(cl.body.alias, EmitSelect(c, map[], q));
    } else {
      DerivedClean(c, env, q);
    }
  }

  lemma {:induction false} ClauseClean(c: Compiler, env: Env, cl: Clause)
    requires BuiltClause(cl) && Visible(cl, c.Engine()) && ClauseOk(c, cl, env)
    ensures Clean(EmitClause(c, env, cl).sql)
    decreases ClauseSize(cl), 2
  {
    EmbeddedScopes(c, cl, env);
    BuiltScopes(cl);
    hide ScopeOk, Built, BuiltClause, Tag, ClauseProblems, ConditionOk, CteOk, ValuesOk, ValuesOf, Clean, ShapeOut, Embedded, AggregateColumnOut, JoinOut, CombineOut, CteOut, Chosen,
      EmitSelect, EmitGroup, EmitClauses, EmitShape, ConditionOperator, Visible, Parameter;
    if SubQueryOf(cl).Some? && !cl.body.Condition? && !cl.body.InsertQuery? {
      EmbeddingClean(c, env, cl);
      return;
    }
    match cl.body
    case AggregateColumn(aggregate, column, filter) => FilteredClean(c, env, aggregate, column, filter);
    case Join(kind, cs) =>
      JoinedTarget(c, cl);
      JoinScopeClean(c, env, kind, cs);
    case Condition(_, _, not, shape) =>
      EmitShapeClean(c, env, cl);
      ShapeClean(c, env, cl, EmitShape(c, env, cl.body.shape));
    case _ => LeafClean(c, env, cl);
  }

  lemma {:induction false} RootEnv(variables: Env)
    ensures map[] + variables == variables
  {
  }

  /** A join of the builder always has a target. */
  lemma {:induction false} JoinedTarget(c: Compiler, cl: Clause)
    requires BuiltClause(cl) && cl.body.Join?
    ensures Built(cl.body.clauses) && Chosen(c, cl.body.clauses, From) != []
  {
    var target :| target in cl.body.clauses && Tag(target) == From && target.engine == "";
    UnscopedIsFound(cl.body.clauses, From, c.Engine(), target);
  }

  lemma {:induction false} LeafClean(c: Compiler, env: Env, cl: Clause)
    requires BuiltClause(cl) && ClauseOk(c, cl, env)
    requires SubQueryOf(cl).None? || cl.body.InsertQuery?
    requires JoinOf(cl).None? && !cl.body.AggregateColumn? && !cl.body.Condition?
    ensures Clean(EmitClause(c, env, cl).sql)
  {
    hide RawOut, TableOut, ClauseProblems, ConditionOk, Built, EmitSelect, EmitGroup, EmitClauses, EmitShape;
    if RawOf(cl).Some? { RawClean(c, RawOf(cl).value); }
    if cl.body.TableCte? { TableClean(c, cl.body.columns, cl.body.rows); }
  }

  lemma {:induction false} EmbeddedClean(c: Compiler, sub: Out, alias: string)
    requires Clean(sub.sql)
    ensures Clean(Embedded(c, sub, alias).sql)
  {
  }

  lemma {:induction false} CombineClean(operation: string, all: bool, sub: Out)
    requires Clean(sub.sql)
    ensures Clean(CombineOut(operation, all, sub).sql)
  {
  }

  lemma {:induction false} CteClean(alias: string, body: Out)
    requires Clean(body.sql)
    ensures Clean(CteOut(alias, body).sql)
  {
  }

  lemma {:induction false} AggregateColumnClean(c: Compiler, aggregate: string, column: string, filter: Out)
    requires Clean(filter.sql)
    ensures Clean(AggregateColumnOut(c, aggregate, column, filter).sql)
  {
  }

  lemma {:induction false} JoinClean(kind: string, target: seq<Out>, cs: seq<Clause>, conditions: seq<Out>)
    requires |cs| == |conditions| && AllClean(target) && target != [] && AllClean(conditions)
    ensures Clean(JoinOut(kind, target, cs, conditions).sql)
  {
    ConnectClean(cs, conditions, false);
  }

  lemma {:induction false} EmitShapeClean(c: Compiler, env: Env, cl: Clause)
    requires BuiltClause(cl) && cl.body.Condition? && ClauseProblems(c, cl, env) == []
    ensures Clean(EmitShape(c, env, cl.body.shape).sql)
    decreases ClauseSize(cl), 1
  {
    EmbeddedScopes(c, cl, env);
    BuiltScopes(cl);
    hide ScopeOk, ClauseProblems, Clean, Built, BuiltClause, EmitShape, EmitSelect, EmitGroup;
    EmbeddedShapeClean(c, env, cl.body.shape);
  }

  lemma {:induction false} EmbeddedShapeClean(c: Compiler, env: Env, shape: Shape)
    requires ShapeQuery(shape).Some? ==>
      var q := ShapeQuery(shape).value; Built(q.clauses) && ScopeOk(c, q.clauses, false, env + q.variables)
    requires shape.Nested? ==> Built(shape.group.clauses) && ScopeOk(c, shape.group.clauses, true, env)
    ensures Clean(EmitShape(c, env, shape).sql)
    decreases ShapeSize(shape), 0
  {
    hide ScopeOk, Clean, Built, EmitSelect, EmitGroup;
    CleanText([]);
    if shape.Exists? {
      ExistsClean(c, env, shape.query);
    } else if shape.Nested? {
      GroupClean(c, env, shape.group);
    } else if ShapeQuery(shape).Some? {
      SelectClean(c, env, shape.query);
    }
  }

  lemma {:induction false} ExistsClean(c: Compiler, env: Env, q: Query)
    requires Built(q.clauses) && ScopeOk(c, q.clauses, false, env + q.variables)
    ensures Clean(EmitSelect(c, env, ExistsCopy(q)).sql)
    decreases QuerySize(q) + 1, 9
  {
    BuiltExistsCopy(q);
    ExistsCopyOk(c, q, env + q.variables);
    hide ScopeOk, Clean, Built, EmitSelect;
    SelectClean(c, env, ExistsCopy(q));
  }

  lemma {:induction false} BuiltScopes(cl: Clause)
    requires BuiltClause(cl)
    ensures SubQueryOf(cl).Some? ==> Built(SubQueryOf(cl).value.clauses)
    ensures GroupOf(cl).Some? ==> Built(GroupOf(cl).value.clauses)
    ensures JoinOf(cl).Some? ==> Built(JoinOf(cl).value)
  {
  }
}
