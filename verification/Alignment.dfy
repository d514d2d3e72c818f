/** Placeholder/argument alignment of every SELECT: the placeholders read left to
    right stand for exactly the argument list, if and only if every raw expression
    and value table that reaches the output is balanced. */
module Alignment {
  import opened Ast
  import opened Dialects
  import opened Emit
  import opened Placeholders
  import S = Strings

  // ----- the condition --------------------------------------------------------------

  predicate BalancedQuery(c: Compiler, q: Query)
    decreases QuerySize(q), 2
  {
    if Recompiled(c, q) then
      RowNumberedSize(c, q);
      BalancedQuery(c, RowNumbered(c, q))
    else
      BalancedScope(c, q.clauses) && BalancedOrders(c, Components(q.clauses, Order, c.Engine()))
  }

  predicate BalancedScope(c: Compiler, cs: seq<Clause>)
    decreases ClausesSize(cs) + 1, 2
  {
    && BalancedClauses(c, Chosen(c, cs, Select)) && BalancedClauses(c, Chosen(c, cs, From))
    && BalancedClauses(c, Chosen(c, cs, Joins)) && BalancedClauses(c, Chosen(c, cs, Where))
    && BalancedClauses(c, Chosen(c, cs, Group)) && BalancedClauses(c, Chosen(c, cs, Having))
    && BalancedClauses(c, Chosen(c, cs, Combine))
  }

  predicate BalancedOrders(c: Compiler, cs: seq<Clause>) {
    forall cl <- cs :: cl.body.OrderRaw? ==> RawBalanced(cl.body.raw)
  }

  predicate BalancedClauses(c: Compiler, cs: seq<Clause>)
    decreases ClausesSize(cs), 2
  {
    cs == [] || (BalancedClause(c, cs[0]) && BalancedClauses(c, cs[1..]))
  }

  predicate BalancedGroup(c: Compiler, group: Query)
    decreases QuerySize(group), 0
  {
    BalancedClauses(c, Components(group.clauses, Where, c.Engine()))
  }

  /** The clause's own raw expression or value table, and what it embeds. */
  predicate BalancedClause(c: Compiler, cl: Clause)
    decreases ClauseSize(cl), 1
  {
    match cl.body
    case FromQuery(q) => BalancedQuery(c, q)
    case QueryColumn(q) => BalancedQuery(c, q)
    case AggregateColumn(_, _, Some(g)) => BalancedGroup(c, g)
    case Join(_, cs) => BalancedClauses(c, Chosen(c, cs, From)) && BalancedClauses(c, Chosen(c, cs, Where))
    case Condition(_, _, _, shape) => BalancedShape(c, shape)
    case CombineQuery(_, _, q) => BalancedQuery(c, q)
    case QueryCte(_, q) => BalancedQuery(c, q)
    case TableCte(_, columns, rows) => forall row <- rows :: BalancedRow(|columns|, row)
    case _ => RawOf(cl).Some? ==> RawBalanced(RawOf(cl).value)
  }

  predicate BalancedShape(c: Compiler, shape: Shape)
    decreases ShapeSize(shape), 0
  {
    match shape
    case RawCondition(raw) => RawBalanced(raw)
    case InQuery(_, q) => BalancedQuery(c, q)
    case SubQuery(q, _, _) => BalancedQuery(c, q)
    case Exists(q) => BalancedQuery(c, ExistsCopy(q))
    case Nested(g) => BalancedGroup(c, g)
    case _ => true
  }

  /** The first `width` values fill the placeholders and the rest bind nothing. */
  predicate BalancedRow(width: nat, row: seq<Value>)
    decreases row
  {
    if width == 0 then forall v <- row :: v.Literal?
    else row != [] && !row[0].Literal? && BalancedRow(width - 1, row[1..])
  }

  // ----- lists of fragments -----------------------------------------------------------

  predicate AllSettled(parts: seq<Out>) { forall p <- parts :: Settled(p) }

  predicate AllAligned(parts: seq<Out>) { forall p <- parts :: Aligned(p) }

  lemma {:induction false} Wordless(ts: seq<Token>)
    requires Holeless(ts)
    ensures Aligned(Text(ts))
  {
    HolelessHasNoHoles(ts);
  }

  lemma {:induction false} JoinedStands(parts: seq<Out>, sep: string)
    requires AllSettled(parts)
    ensures Settled(Joined(parts, sep)) && (Aligned(Joined(parts, sep)) <==> AllAligned(parts))
  {
    if |parts| > 1 {
      JoinedStands(parts[1..], sep);
      Wordless([Sym(sep)]);
      SettledCat(Word(sep), Joined(parts[1..], sep));
      SettledCat(parts[0], Cat(Word(sep), Joined(parts[1..], sep)));
      assert parts == [parts[0]] + parts[1..];
    }
  }

  lemma {:induction false} ListedStands(keyword: string, parts: seq<Out>, sep: string)
    requires AllSettled(parts)
    ensures Settled(Listed(keyword, parts, sep)) && (Aligned(Listed(keyword, parts, sep)) <==> AllAligned(parts))
  {
    JoinedStands(parts, sep);
    Wordless([Sym(keyword)]);
    SettledCat(Word(keyword), Joined(parts, sep));
  }

  lemma {:induction false} ConnectStands(cs: seq<Clause>, parts: seq<Out>, started: bool)
    requires |cs| == |parts| && AllSettled(parts)
    ensures var o := Connect(cs, parts, started); Settled(o) && (Aligned(o) <==> AllAligned(parts))
  {
    if cs != [] {
      var rest := started || parts[0].sql != [];
      ConnectStands(cs[1..], parts[1..], rest);
      assert parts == [parts[0]] + parts[1..];
      Wordless([Connective(cs[0])]);
      SettledCat(Text([Connective(cs[0])]), parts[0]);
      SettledCat(parts[0], Connect(cs[1..], parts[1..], rest));
      SettledCat(Cat(Text([Connective(cs[0])]), parts[0]), Connect(cs[1..], parts[1..], rest));
    }
  }

  lemma {:induction false} SectionStands(keyword: string, cs: seq<Clause>, parts: seq<Out>)
    requires |cs| == |parts| && AllSettled(parts)
    ensures var o := ConditionSection(keyword, cs, parts); Settled(o) && (Aligned(o) <==> AllAligned(parts))
  {
    ConnectStands(cs, parts, false);
    Wordless([Sym(keyword)]);
    SettledCat(Word(keyword), Connect(cs, parts, false));
  }

  // ----- values -------------------------------------------------------------------------

  lemma {:induction false} ParameterAligned(env: Env, v: Value)
    ensures Aligned(Parameter(env, v))
  {
    var o := Parameter(env, v);
    if v.Variable? && v.name !in env {
      assert o.sql == [Fault(Undefined(v.name))] + [Hole(Filled(Null))];
      HolesConcat([Fault(Undefined(v.name))], [Hole(Filled(Null))]);
      HolesOfOne(Fault(Undefined(v.name)));
      HolesOfOne(Hole(Filled(Null)));
    } else {
      HolesOfOne(o.sql[0]);
    }
  }

  lemma {:induction false} ParameterizeAligned(env: Env, values: seq<Value>)
    ensures Aligned(Parameterize(env, values))
  {
    var parts := ParameterParts(env, values);
    forall p | p in parts ensures Aligned(p) {
      var i :| 0 <= i < |parts| && parts[i] == p;
      ParameterAligned(env, values[i]);
    }
    JoinedStands(parts, ",");
  }

  lemma {:induction false} BindAligned(n: int)
    ensures Aligned(Bind(n))
  {
    HolesOfOne(Hole(Filled(Num(n))));
  }

  lemma {:induction false} AlignedCat(a: Out, b: Out)
    requires Aligned(a) && Aligned(b)
    ensures Aligned(Cat(a, b))
  {
    SettledCat(a, b);
  }

  lemma {:induction false} TextThen(ts: seq<Token>, o: Out)
    requires Holeless(ts) && Settled(o)
    ensures Settled(Cat(Text(ts), o)) && (Aligned(Cat(Text(ts), o)) <==> Aligned(o))
  {
    Wordless(ts);
    SettledCat(Text(ts), o);
  }

  // ----- value tables ---------------------------------------------------------------------

  lemma {:induction false} RowStands(c: Compiler, columns: seq<string>, row: seq<Value>)
    ensures var o := TableRow(c, columns, row);
      Settled(o) && (Aligned(o) <==> BalancedRow(|columns|, row))
    decreases columns
  {
    var o := TableRow(c, columns, row);
    if columns == [] {
      RowArgsOfLiterals(row);
    } else {
      var rest := if row == [] then [] else row[1..];
      RowStands(c, columns[1..], rest);
      var tail := TableRow(c, columns[1..], rest);
      var slot := if row == [] || row[0].Literal? then Unfilled
                  else if row[0].Variable? then Filled(Null) else Filled(row[0]);
      var before := if row != [] && row[0].Variable? then [Fault(Undefined(row[0].name))] else [];
      var after := if c.dialect.SqlServer? then [] else [Sym("AS"), Ident(columns[0])];
      var cell := Out([Hole(slot)], if row == [] then [] else Parameter(map[], row[0]).args);
      HolesOfOne(Hole(slot));
      assert Settled(cell) && (Aligned(cell) <==> row != [] && !row[0].Literal?);
      Around(before, cell, after);
      SettledCat(Out(before + cell.sql + after, cell.args), tail);
      assert o == Cat(Out(before + cell.sql + after, cell.args), tail);
    }
  }

  lemma {:induction false} RowArgsOfLiterals(row: seq<Value>)
    ensures RowArgs(row) == [] <==> forall v <- row :: v.Literal?
  {
    if row != [] {
      RowArgsOfLiterals(row[1..]);
      if row[0].Literal? {
        assert RowArgs(row) == RowArgs(row[1..]);
      }
      assert |RowArgs(row)| == |Parameter(map[], row[0]).args| + |RowArgs(row[1..])|;
      assert row == [row[0]] + row[1..];
    }
  }

  lemma {:induction false} TableRowsStand(c: Compiler, columns: seq<string>, rows: seq<seq<Value>>)
    ensures var parts := TableRows(c, columns, rows);
      AllSettled(parts) && (AllAligned(parts) <==> forall row <- rows :: BalancedRow(|columns|, row))
  {
    if rows != [] {
      TableRowsStand(c, columns, rows[1..]);
      RowStands(c, columns, rows[0]);
      var row := TableRow(c, columns, rows[0]);
      Around([Sym("(")], row, [Sym(")")]);
      Around([Sym("SELECT")], row, if c.dialect.Oracle? then [Sym("FROM DUAL")] else []);
      var parts := TableRows(c, columns, rows);
      assert parts == [parts[0]] + TableRows(c, columns, rows[1..]);
      assert rows == [rows[0]] + rows[1..];
    }
  }

  lemma {:induction false} NamesHoleless(columns: seq<string>)
    ensures Holeless(ColumnNames(columns))
  {
    if columns != [] { NamesHoleless(columns[1..]); }
  }

  lemma {:induction false} TableStands(c: Compiler, columns: seq<string>, rows: seq<seq<Value>>)
    ensures var o := TableOut(c, columns, rows);
      Settled(o) && (Aligned(o) <==> forall row <- rows :: BalancedRow(|columns|, row))
  {
    var parts := TableRows(c, columns, rows);
    TableRowsStand(c, columns, rows);
    JoinedStands(parts, ",");
    JoinedStands(parts, "UNION ALL");
    hide TableRows, Joined, AllSettled, AllAligned, Settled, Aligned, BalancedRow, ColumnNames;
    ValuesStand(columns, Joined(parts, ","));
  }

  lemma {:induction false} ValuesStand(columns: seq<string>, o: Out)
    requires Settled(o)
    ensures var r := Cat(Text([Sym("SELECT")] + ColumnNames(columns) + [Sym("FROM (VALUES")]),
          Cat(o, Text([Sym(") AS tbl (")] + ColumnNames(columns) + [Sym(")")])));
      Settled(r) && (Aligned(r) <==> Aligned(o))
  {
    NamesHoleless(columns);
    var head := [Sym("SELECT")] + ColumnNames(columns) + [Sym("FROM (VALUES")];
    var tail := [Sym(") AS tbl (")] + ColumnNames(columns) + [Sym(")")];
    hide Aligned, ColumnNames;
    Wordless(tail);
    SettledCat(o, Text(tail));
    TextThen(head, Cat(o, Text(tail)));
  }

  // ----- conditions -------------------------------------------------------------------------

  /** A fragment without raw text or descent is aligned whatever it negates. */
  lemma {:induction false} NegatedStands(not: bool, o: Out)
    requires Settled(o)
    ensures Settled(Negated(not, o)) && (Aligned(Negated(not, o)) <==> Aligned(o))
  {
    Around([KNot, LParen], o, [RParen]);
  }

  lemma {:induction false} LikeAligned(c: Compiler, column: string, pattern: string, text: string, caseSensitive: bool, escape: string)
    ensures Aligned(LikeOut(c, column, pattern, text, caseSensitive, escape))
  {
    var value := Wildcards(pattern, text);
    var escapeText := if escape == "" then [] else [Sym("ESCAPE '" + escape + "'")];
    LikeTextAligned([Ident(column)], OperatorToken(c, if caseSensitive then "like" else "ilike"), Str(value), escapeText);
    LikeTextAligned([Ident(column)], OperatorToken(c, "like"), Str(value), escapeText);
    LikeTextAligned([Sym("LOWER("), Ident(column), Sym(")")], OperatorToken(c, "like"), Str(S.Lower(value)), escapeText);
    assert [Sym("LOWER("), Ident(column), Sym(")")] + [OperatorToken(c, "like"), Hole(Filled(Str(S.Lower(value))))]
        == [Sym("LOWER("), Ident(column), Sym(")"), OperatorToken(c, "like"), Hole(Filled(Str(S.Lower(value))))];
    forall t | t in [OperatorToken(c, if caseSensitive then "like" else "ilike"), OperatorToken(c, "like")]
      ensures [Ident(column)] + [t, Hole(Filled(Str(value)))] == [Ident(column), t, Hole(Filled(Str(value)))]
    {
    }
  }

  lemma {:induction false} LikeTextAligned(column: seq<Token>, op: Token, value: Value, escapeText: seq<Token>)
    requires Holeless(column) && Holeless([op]) && Holeless(escapeText)
    ensures Aligned(Out(column + [op, Hole(Filled(value))] + escapeText, [value]))
  {
    HolesOfOne(Hole(Filled(value)));
    Around(column + [op], Out([Hole(Filled(value))], [value]), escapeText);
    assert column + [op] + [Hole(Filled(value))] == column + [op, Hole(Filled(value))];
  }

  lemma {:induction false} DateAligned(c: Compiler, env: Env, part: string, column: string, op: string, v: Value)
    ensures Aligned(DateOut(c, env, part, column, op, v))
  {
    var f := DateFrame(c, part, v);
    var before := Maybe(f.columnBefore) + [Ident(column)] + Maybe(f.columnAfter) + [OperatorToken(c, op)]
                  + Maybe(f.valueBefore);
    ParameterAligned(env, v);
    Around(before, Parameter(env, v), Maybe(f.valueAfter));
  }

  /** A condition stands as its raw expression or its embedded text does. */
  lemma {:induction false} ShapeStands(c: Compiler, env: Env, not: bool, shape: Shape, inner: Out)
    requires shape.RawCondition? ==> RawSettled(shape.raw)
    requires Settled(inner)
    ensures var o := ShapeOut(c, env, not, shape, inner);
      && Settled(o)
      && (Aligned(o) <==>
            if shape.RawCondition? then RawBalanced(shape.raw)
            else shape.InQuery? || shape.SubQuery? || shape.Exists? || shape.Nested? ==> Aligned(inner))
  {
    if shape.InQuery? || shape.SubQuery? || shape.Exists? || shape.Nested? {
      EmbeddingShapeStands(c, env, not, shape, inner);
    } else if shape.RawCondition? {
      RawStands(c, shape.raw);
    } else {
      ValueShapeAligned(c, env, not, shape, inner);
      AlignedIsSettled(ShapeOut(c, env, not, shape, inner));
    }
  }

  lemma {:induction false} AlignedThen(ts: seq<Token>, o: Out)
    requires Holeless(ts) && Aligned(o)
    ensures Aligned(Cat(Text(ts), o))
  {
    TextThen(ts, o);
  }

  lemma {:induction false} NegatedAligned(not: bool, o: Out)
    requires Aligned(o)
    ensures Aligned(Negated(not, o))
  {
    NegatedStands(not, o);
  }

  lemma {:induction false} ValueShapeAligned(c: Compiler, env: Env, not: bool, shape: Shape, inner: Out)
    requires !shape.InQuery? && !shape.SubQuery? && !shape.Exists? && !shape.Nested? && !shape.RawCondition?
    ensures Aligned(ShapeOut(c, env, not, shape, inner))
  {
    hide Aligned, Settled, Parameter, Parameterize, LikeOut, DateOut;
    match shape
    case Basic(column, op, value) =>
      ParameterAligned(env, value);
      AlignedThen([Ident(column), OperatorToken(c, op)], Parameter(env, value));
      NegatedAligned(not, Cat(Text([Ident(column), OperatorToken(c, op)]), Parameter(env, value)));
    case IsNull(column) => Wordless(ShapeOut(c, env, not, shape, inner).sql);
    case IsBool(column, truth) => Wordless(ShapeOut(c, env, not, shape, inner).sql);
    case TwoColumns(first, op, second) => Wordless(ShapeOut(c, env, not, shape, inner).sql);
    case Between(column, lower, higher) =>
      ParameterAligned(env, lower);
      ParameterAligned(env, higher);
      AlignedThen([KAnd], Parameter(env, higher));
      AlignedCat(Parameter(env, lower), Cat(Text([KAnd]), Parameter(env, higher)));
      AlignedThen([Ident(column), KBetween(not)],
               Cat(Parameter(env, lower), Cat(Text([KAnd]), Parameter(env, higher))));
    case In(column, values) =>
      if values == [] {
        Wordless(ShapeOut(c, env, not, shape, inner).sql);
      } else {
        ParameterizeAligned(env, values);
        Wordless([Sym(")")]);
        AlignedCat(Parameterize(env, values), Word(")"));
        AlignedThen([Ident(column), Sym(if not then "NOT IN" else "IN"), Sym("(")], Cat(Parameterize(env, values), Word(")")));
      }
    case Like(column, pattern, text, caseSensitive, escape) =>
      LikeAligned(c, column, pattern, text, caseSensitive, escape);
      NegatedAligned(not, LikeOut(c, column, pattern, text, caseSensitive, escape));
    case DatePart(part, column, op, value) =>
      DateAligned(c, env, part, column, op, value);
      NegatedAligned(not && !DropsNot(c, part), DateOut(c, env, part, column, op, value));
  }

  lemma {:induction false} EmbeddingShapeStands(c: Compiler, env: Env, not: bool, shape: Shape, inner: Out)
    requires shape.InQuery? || shape.SubQuery? || shape.Exists? || shape.Nested?
    requires Settled(inner)
    ensures var o := ShapeOut(c, env, not, shape, inner); Settled(o) && (Aligned(o) <==> Aligned(inner))
  {
    match shape
    case InQuery(column, _) =>
      Embedding([Ident(column), Sym(if not then "NOT IN" else "IN")], inner, []);
      var o := ShapeOut(c, env, not, shape, inner);
      assert o.sql == [Ident(column), Sym(if not then "NOT IN" else "IN")] + [Inner(inner.sql)] + [];
    case SubQuery(_, op, value) =>
      Embedding([], inner, [OperatorToken(c, op)]);
      assert [] + [Inner(inner.sql)] + [OperatorToken(c, op)] == [Inner(inner.sql), OperatorToken(c, op)];
      ParameterAligned(env, value);
      SettledCat(Out([Inner(inner.sql), OperatorToken(c, op)], inner.args), Parameter(env, value));
    case Exists(_) =>
      Embedding([Sym(if not then "NOT EXISTS" else "EXISTS")], inner, []);
      var o := ShapeOut(c, env, not, shape, inner);
      assert o.sql == [Sym(if not then "NOT EXISTS" else "EXISTS")] + [Inner(inner.sql)] + [];
    case Nested(_) =>
      Around((if not then [KNot] else []) + [LParen], inner, [RParen]);
  }

  // ----- heads, pagination, ordering -----------------------------------------------------------

  lemma {:induction false} AliasHoleless(c: Compiler, alias: string)
    ensures Holeless(AliasText(c, alias))
  {
  }

  lemma {:induction false} AggregateColumnStands(c: Compiler, aggregate: string, column: string, filter: Out)
    requires Settled(filter)
    ensures var o := AggregateColumnOut(c, aggregate, column, filter);
      Settled(o) && (Aligned(o) <==> Aligned(filter))
  {
    var (name, alias) := S.SplitAlias(column);
    var open := Sym(S.Upper(aggregate) + "(");
    var o := AggregateColumnOut(c, aggregate, column, filter);
    AliasHoleless(c, alias);
    hide S.SplitAlias, S.Upper, AliasText, Holes, Slots;
    if filter.sql == [] {
      HolelessHasNoHoles([open, Ident(name), Sym(")")] + AliasText(c, alias));
      assert Holes(filter.sql) == [] by { HolelessHasNoHoles(filter.sql); }
    } else if c.SupportsFilter() {
      Around([open, Ident(name), Sym(") FILTER (WHERE")], filter, [Sym(")")] + AliasText(c, alias));
      assert o.sql == [open, Ident(name), Sym(") FILTER (WHERE")] + filter.sql + ([Sym(")")] + AliasText(c, alias));
    } else {
      Around([open, Sym("CASE WHEN")], filter, [Sym("THEN"), Ident(name), Sym("END)")] + AliasText(c, alias));
      assert o.sql == [open, Sym("CASE WHEN")] + filter.sql + ([Sym("THEN"), Ident(name), Sym("END)")] + AliasText(c, alias));
    }
  }

  lemma {:induction false} TopAligned(c: Compiler, limit: int, offset: int)
    ensures Aligned(TopSection(c, limit, offset))
  {
    BindAligned(limit);
    Wordless([Sym(")")]);
    AlignedCat(Bind(limit), Word(")"));
    TextThen([Sym("TOP (")], Cat(Bind(limit), Word(")")));
  }

  lemma {:induction false} AggregateHeadAligned(c: Compiler, kind: string, targets: seq<string>, distinct: bool, top: Out)
    requires Aligned(top)
    ensures Aligned(AggregateHead(c, kind, targets, distinct, top))
  {
    var body := if |targets| != 1 then [Sym("1")]
                else [Sym(S.Upper(kind) + "(")] + (if distinct then [Sym("DISTINCT")] else [])
                     + [Ident(targets[0]), Sym(")")] + NameText(c, kind);
    Wordless(body);
    AlignedCat(top, Text(body));
    TextThen([Sym("SELECT")], Cat(top, Text(body)));
  }

  lemma {:induction false} SelectHeadStands(columns: seq<Out>, distinct: bool, top: Out)
    requires AllSettled(columns) && Aligned(top)
    ensures var o := SelectHead(columns, distinct, top); Settled(o) && (Aligned(o) <==> AllAligned(columns))
  {
    var list := if columns == [] then Word("*") else Joined(columns, ",");
    Wordless([Sym("*")]);
    JoinedStands(columns, ",");
    SettledCat(top, list);
    TextThen([Sym("SELECT")] + if distinct then [Sym("DISTINCT")] else [], Cat(top, list));
  }

  lemma {:induction false} HeadStands(c: Compiler, q: Query, columns: seq<Out>)
    requires AllSettled(columns)
    requires One(q.clauses, Aggregate, c.Engine()).Some? ==> columns == []
    ensures var o := HeadSection(c, q, columns); Settled(o) && (Aligned(o) <==> AllAligned(columns))
  {
    hide Settled, Aligned;
    var top := TopSection(c, LimitOf(c, q.clauses), OffsetOf(c, q.clauses));
    TopAligned(c, LimitOf(c, q.clauses), OffsetOf(c, q.clauses));
    var cl := One(q.clauses, Aggregate, c.Engine());
    if cl.Some? && cl.value.body.Aggregated? {
      var Aggregated(kind, targets) := cl.value.body;
      AggregateHeadAligned(c, kind, targets, q.distinct, top);
      AlignedIsSettled(AggregateHead(c, kind, targets, q.distinct, top));
    } else {
      SelectHeadStands(columns, q.distinct, top);
    }
  }

  lemma {:induction false} AlignedIsSettled(o: Out)
    ensures Aligned(o) ==> Settled(o)
  {
  }

  lemma {:induction false} StandardLimitAligned(limit: int, offset: int)
    ensures Aligned(StandardLimit(limit, offset))
  {
    BindAligned(limit);
    BindAligned(offset);
    TextThen([Sym("LIMIT")], Bind(limit));
    TextThen([Sym("OFFSET")], Bind(offset));
    AlignedCat(Cat(Word("LIMIT"), Bind(limit)), Cat(Word("OFFSET"), Bind(offset)));
  }

  lemma {:induction false} FetchAligned(ordered: bool, filler: string, limit: int, offset: int, bare: bool)
    ensures Aligned(FetchForm(ordered, filler, limit, offset, bare))
  {
    BindAligned(limit);
    BindAligned(offset);
    Wordless([Sym("ROWS")]);
    Wordless([Sym("ROWS ONLY")]);
    Wordless([Sym(filler)]);
    AlignedCat(Bind(offset), Word("ROWS"));
    TextThen([Sym("OFFSET")], Cat(Bind(offset), Word("ROWS")));
    var order := if ordered then Nothing else Word(filler);
    var skip := Cat(order, Cat(Word("OFFSET"), Cat(Bind(offset), Word("ROWS"))));
    AlignedCat(order, Cat(Word("OFFSET"), Cat(Bind(offset), Word("ROWS"))));
    AlignedCat(Bind(limit), Word("ROWS ONLY"));
    TextThen([Sym("FETCH NEXT")], Cat(Bind(limit), Word("ROWS ONLY")));
    AlignedCat(skip, Cat(Word("FETCH NEXT"), Cat(Bind(limit), Word("ROWS ONLY"))));
  }

  lemma {:induction false} LimitAligned(c: Compiler, ordered: bool, limit: int, offset: int)
    ensures Aligned(LimitSection(c, ordered, limit, offset))
  {
    StandardLimitAligned(limit, offset);
    BindAligned(offset);
    TextThen([Sym("LIMIT 18446744073709551615 OFFSET")], Bind(offset));
    TextThen([Sym("LIMIT -1 OFFSET")], Bind(offset));
    FetchAligned(ordered, "ORDER BY (SELECT 0)", limit, offset, limit <= 0);
    FetchAligned(ordered, "ORDER BY (SELECT 0 FROM DUAL)", limit, offset, limit == 0);
  }

  lemma {:induction false} OrdersStand(c: Compiler, cs: seq<Clause>)
    requires forall cl <- cs :: cl.body.OrderRaw? ==> RawSettled(cl.body.raw)
    ensures var o := OrdersOut(OrderParts(c, cs));
      Settled(o) && (Aligned(o) <==> BalancedOrders(c, cs))
  {
    OrderPartsStand(c, cs);
    var parts := OrderParts(c, cs);
    JoinedStands(parts, ",");
    TextThen([Sym("ORDER BY")], Joined(parts, ","));
  }

  lemma {:induction false} RawTokensClean(text: string, bindings: seq<Value>)
    ensures Clean(RawTokens(text, bindings))
    decreases text
  {
    if text != "" { RawTokensClean(text[1..], if text[0] == '?' && bindings != [] then bindings[1..] else bindings); }
  }

  lemma {:induction false} RawClean(c: Compiler, raw: Raw)
    requires RawSettled(raw)
    ensures Clean(RawOut(c, raw).sql)
  {
    if raw.expression.Written? { RawTokensClean(S.WrapIdentifiers(c.Quotes(), raw.expression.text), raw.bindings); }
  }

  predicate AllClean(parts: seq<Out>) { forall p <- parts :: Clean(p.sql) }

  lemma {:induction false} JoinedClean(parts: seq<Out>, sep: string)
    requires AllClean(parts)
    ensures Clean(Joined(parts, sep).sql)
  {
    if |parts| > 1 { JoinedClean(parts[1..], sep); }
  }

  lemma {:induction false} OrdersClean(c: Compiler, cs: seq<Clause>)
    requires forall cl <- cs :: cl.body.OrderRaw? ==> RawSettled(cl.body.raw)
    ensures Clean(OrdersOut(OrderParts(c, cs)).sql)
  {
    OrderPartsClean(c, cs);
    JoinedClean(OrderParts(c, cs), ",");
  }

  lemma {:induction false} OrderPartsClean(c: Compiler, cs: seq<Clause>)
    requires forall cl <- cs :: cl.body.OrderRaw? ==> RawSettled(cl.body.raw)
    ensures AllClean(OrderParts(c, cs))
  {
    if cs != [] {
      if cs[0].body.OrderRaw? { RawClean(c, cs[0].body.raw); }
      OrderPartsClean(c, cs[1..]);
    }
  }

  lemma {:induction false} OrderPartsStand(c: Compiler, cs: seq<Clause>)
    requires forall cl <- cs :: cl.body.OrderRaw? ==> RawSettled(cl.body.raw)
    ensures var parts := OrderParts(c, cs);
      AllSettled(parts) && (AllAligned(parts) <==> BalancedOrders(c, cs))
  {
    hide OrderOut, Settled, Aligned, RawBalanced, RawSettled;
    if cs != [] {
      OrderPartsStand(c, cs[1..]);
      assert cs == [cs[0]] + cs[1..];
      OrderStands(c, cs[0]);
    }
  }

  lemma {:induction false} OrderStands(c: Compiler, cl: Clause)
    requires cl.body.OrderRaw? ==> RawSettled(cl.body.raw)
    ensures Settled(OrderOut(c, cl)) && (Aligned(OrderOut(c, cl)) <==> (cl.body.OrderRaw? ==> RawBalanced(cl.body.raw)))
  {
    hide RawOut, Settled, Aligned, RawBalanced, RawSettled;
    AlignedIsSettled(OrderOut(c, cl));
    match cl.body
    case OrderColumn(column, ascending) => Wordless([Ident(column)] + if ascending then [] else [Sym("DESC")]);
    case OrderRaw(raw) => RawStands(c, raw);
    case OrderRandom => Wordless([Sym(c.RandomFunction())]);
    case _ => Wordless([]);
  }

  lemma {:induction false} RownumStands(body: Out, limit: int, offset: int)
    requires Settled(body)
    ensures var o := RownumWrap(body, limit, offset); Settled(o) && (Aligned(o) <==> Aligned(body))
  {
    var o := RownumWrap(body, limit, offset);
    BindAligned(offset);
    BindAligned(limit);
    BindAligned(Int64(limit + offset));
    if limit == 0 && offset == 0 {
    } else if limit == 0 {
      var a := Sym("SELECT * FROM (SELECT \"results_wrapper\".*, ROWNUM \"row_num\" FROM (");
      var b := Sym(") \"results_wrapper\") WHERE \"row_num\" >");
      Embedding([a], body, [b]);
      assert [a] + [Inner(body.sql)] + [b] == [a, Inner(body.sql), b];
      SettledCat(Out([a, Inner(body.sql), b], body.args), Bind(offset));
    } else if offset == 0 {
      var a, b := Sym("SELECT * FROM ("), Sym(") WHERE ROWNUM <=");
      Embedding([a], body, [b]);
      assert [a] + [Inner(body.sql)] + [b] == [a, Inner(body.sql), b];
      SettledCat(Out([a, Inner(body.sql), b], body.args), Bind(limit));
    } else {
      var a := Sym("SELECT * FROM (SELECT \"results_wrapper\".*, ROWNUM \"row_num\" FROM (");
      var b := Sym(") \"results_wrapper\" WHERE ROWNUM <=");
      Embedding([a], body, [b]);
      assert [a] + [Inner(body.sql)] + [b] == [a, Inner(body.sql), b];
      TextThen([Sym(") WHERE \"row_num\" >")], Bind(offset));
      AlignedCat(Bind(Int64(limit + offset)), Cat(Word(") WHERE \"row_num\" >"), Bind(offset)));
      SettledCat(Out([a, Inner(body.sql), b], body.args),
                 Cat(Bind(Int64(limit + offset)), Cat(Word(") WHERE \"row_num\" >"), Bind(offset))));
    }
  }

  lemma {:induction false} RowNumberStands(inner: Out, limit: int, offset: int)
    requires Settled(inner)
    ensures var o := RowNumberWrap(inner, limit, offset); Settled(o) && (Aligned(o) <==> Aligned(inner))
  {
    var a := [Sym("SELECT * FROM (")];
    var b := [Sym(") AS"), Ident("results_wrapper"), Sym("WHERE"), Ident("row_num")];
    Embedding(a, inner, b);
    var head := Out([Sym("SELECT * FROM ("), Inner(inner.sql), Sym(") AS"), Ident("results_wrapper"),
                     Sym("WHERE"), Ident("row_num")], inner.args);
    assert head.sql == a + [Inner(inner.sql)] + b;
    BindAligned(Int64(offset + 1));
    BindAligned(Int64(limit + offset));
    TextThen([Sym(">=")], Bind(Int64(offset + 1)));
    TextThen([Sym("AND")], Bind(Int64(limit + offset)));
    var range := Cat(Bind(Int64(offset + 1)), Cat(Word("AND"), Bind(Int64(limit + offset))));
    AlignedCat(Bind(Int64(offset + 1)), Cat(Word("AND"), Bind(Int64(limit + offset))));
    TextThen([Sym("BETWEEN")], range);
    SettledCat(head, Cat(Word(">="), Bind(Int64(offset + 1))));
    SettledCat(head, Cat(Word("BETWEEN"), range));
  }

  // ----- the nine sections ------------------------------------------------------------------------

  predicate PartsSettled(p: Parts) {
    && AllSettled(p.columns) && AllSettled(p.table) && AllSettled(p.joins) && AllSettled(p.wheres)
    && AllSettled(p.groups) && AllSettled(p.havings) && AllSettled(p.combines)
  }

  predicate PartsAligned(p: Parts) {
    && AllAligned(p.columns) && AllAligned(p.table) && AllAligned(p.joins) && AllAligned(p.wheres)
    && AllAligned(p.groups) && AllAligned(p.havings) && AllAligned(p.combines)
  }

  lemma {:induction false} TableSectionStands(parts: seq<Out>)
    requires AllSettled(parts) && |parts| <= 1
    ensures Settled(TableSection(parts)) && (Aligned(TableSection(parts)) <==> AllAligned(parts))
  {
    Wordless([Fault(NoTable)]);
  }

  lemma {:induction false} AssembleStands(c: Compiler, q: Query, p: Parts)
    requires PartsFit(c, q.clauses, p) && PartsSettled(p) && |p.table| <= 1
    requires One(q.clauses, Aggregate, c.Engine()).Some? ==> p.columns == []
    requires forall cl <- Components(q.clauses, Order, c.Engine()) :: cl.body.OrderRaw? ==> RawSettled(cl.body.raw)
    ensures var o := Assemble(c, q, p);
      && Settled(o)
      && (Aligned(o) <==> PartsAligned(p) && BalancedOrders(c, Components(q.clauses, Order, c.Engine())))
  {
    hide Settled, Aligned, Joined, Listed, ConditionSection, OrdersOut, OrderParts, LimitSection, HeadSection;
    hide BalancedOrders, TableSection, AllSettled, AllAligned, Chosen;
    var orders := Components(q.clauses, Order, c.Engine());
    var limit, offset := LimitOf(c, q.clauses), OffsetOf(c, q.clauses);
    var s1 := HeadSection(c, q, p.columns);
    var s2 := Cat(Word("FROM"), TableSection(p.table));
    var s3 := Joined(p.joins, "");
    var s4 := ConditionSection("WHERE", Chosen(c, q.clauses, Where), p.wheres);
    var s5 := Listed("GROUP BY", p.groups, ",");
    var s6 := ConditionSection("HAVING", Chosen(c, q.clauses, Having), p.havings);
    var s7 := OrdersOut(OrderParts(c, orders));
    var s8 := LimitSection(c, orders != [], limit, offset);
    var s9 := Joined(p.combines, "");
    HeadStands(c, q, p.columns);
    TableSectionStands(p.table);
    TextThen([Sym("FROM")], TableSection(p.table));
    JoinedStands(p.joins, "");
    SectionStands("WHERE", Chosen(c, q.clauses, Where), p.wheres);
    ListedStands("GROUP BY", p.groups, ",");
    SectionStands("HAVING", Chosen(c, q.clauses, Having), p.havings);
    OrdersStand(c, orders);
    LimitAligned(c, orders != [], limit, offset);
    AlignedIsSettled(s8);
    JoinedStands(p.combines, "");
    ChainStands(s1, s2, s3, s4, s5, s6, s7, s8, s9);
  }

  lemma {:induction false} ChainStands(s1: Out, s2: Out, s3: Out, s4: Out, s5: Out, s6: Out, s7: Out, s8: Out, s9: Out)
    requires Settled(s1) && Settled(s2) && Settled(s3) && Settled(s4) && Settled(s5)
    requires Settled(s6) && Settled(s7) && Settled(s8) && Settled(s9)
    ensures var o := Cat(s1, Cat(s2, Cat(s3, Cat(s4, Cat(s5, Cat(s6, Cat(s7, Cat(s8, s9))))))));
      && Settled(o)
      && (Aligned(o) <==> Aligned(s1) && Aligned(s2) && Aligned(s3) && Aligned(s4) && Aligned(s5) && Aligned(s6)
                          && Aligned(s7) && Aligned(s8) && Aligned(s9))
  {
    hide Settled, Aligned;
    SettledCat(s8, s9);
    SettledCat(s7, Cat(s8, s9));
    SettledCat(s6, Cat(s7, Cat(s8, s9)));
    SettledCat(s5, Cat(s6, Cat(s7, Cat(s8, s9))));
    SettledCat(s4, Cat(s5, Cat(s6, Cat(s7, Cat(s8, s9)))));
    SettledCat(s3, Cat(s4, Cat(s5, Cat(s6, Cat(s7, Cat(s8, s9))))));
    SettledCat(s2, Cat(s3, Cat(s4, Cat(s5, Cat(s6, Cat(s7, Cat(s8, s9)))))));
    SettledCat(s1, Cat(s2, Cat(s3, Cat(s4, Cat(s5, Cat(s6, Cat(s7, Cat(s8, s9))))))));
  }

  // ----- the descent -------------------------------------------------------------------------------

  lemma {:induction false} BuiltChosen(c: Compiler, cs: seq<Clause>, of: Component)
    requires Built(cs)
    ensures Built(Chosen(c, cs, of)) && Built(Components(cs, of, c.Engine()))
  {
    BuiltSubset(cs, Chosen(c, cs, of));
    BuiltSubset(cs, Components(cs, of, c.Engine()));
  }

  lemma {:induction false} BuiltSubset(cs: seq<Clause>, part: seq<Clause>)
    requires Built(cs) && forall cl <- part :: cl in cs
    ensures Built(part)
  {
    forall i | 0 <= i < |part| ensures BuiltClause(part[i]) {
      assert part[i] in cs;
      var j :| 0 <= j < |cs| && cs[j] == part[i];
    }
  }

  lemma {:induction false} BuiltOrders(c: Compiler, cs: seq<Clause>)
    requires Built(cs)
    ensures forall cl <- Components(cs, Order, c.Engine()) :: cl.body.OrderRaw? ==> RawSettled(cl.body.raw)
  {
    var orders := Components(cs, Order, c.Engine());
    BuiltChosen(c, cs, Order);
    forall cl | cl in orders && cl.body.OrderRaw? ensures RawSettled(cl.body.raw) {
      var i :| 0 <= i < |orders| && orders[i] == cl;
      assert BuiltClause(orders[i]);
    }
  }

  lemma {:induction false} BuiltExistsCopy(q: Query)
    requires Built(q.clauses)
    ensures Built(ExistsCopy(q).clauses)
  {
    BuiltSubset(q.clauses, Without(q.clauses, {Select}));
  }

  lemma {:induction false} NumberStands(c: Compiler, orders: seq<Clause>)
    requires forall cl <- orders :: cl.body.OrderRaw? ==> RawSettled(cl.body.raw)
    ensures var order := if orders == [] then Word("ORDER BY (SELECT 0)") else OrdersOut(OrderParts(c, orders));
      var number := [Sym("ROW_NUMBER() OVER (")] + order.sql + [Sym(") AS"), Ident("row_num")];
      Settled(Out(number, order.args)) && Clean(number)
  {
    hide RawSettled, OrdersOut, OrderParts, Aligned, Broken;
    OrdersClean(c, orders);
    OrdersStand(c, orders);
    Wordless([Sym("ORDER BY (SELECT 0)")]);
    var order := if orders == [] then Word("ORDER BY (SELECT 0)") else OrdersOut(OrderParts(c, orders));
    Around([Sym("ROW_NUMBER() OVER (")], order, [Sym(") AS"), Ident("row_num")]);
  }

  lemma {:induction false} BuiltRowNumbered(c: Compiler, q: Query)
    requires Built(q.clauses)
    ensures Built(RowNumbered(c, q).clauses)
  {
    BuiltSubset(q.clauses, Without(q.clauses, {Order, Limit, Offset}));
    NumberIsBuilt(c, q);
    hide Built, BuiltClause, RowNumberColumns, Without;
    BuiltAppend(Drop(q, {Order, Limit, Offset}), RowNumberColumns(c, q));
  }

  lemma {:induction false} NumberIsBuilt(c: Compiler, q: Query)
    requires Built(q.clauses)
    ensures forall b <- RowNumberColumns(c, q) :: BuiltClause(Clause(q.engineScope, b))
  {
    var orders := Components(q.clauses, Order, c.Engine());
    var order := if orders == [] then Word("ORDER BY (SELECT 0)") else OrdersOut(OrderParts(c, orders));
    var number := [Sym("ROW_NUMBER() OVER (")] + order.sql + [Sym(") AS"), Ident("row_num")];
    hide Settled, Clean, OrdersOut, OrderParts, Components, Without, Built, BuiltClause;
    BuiltOrders(c, q.clauses);
    NumberStands(c, orders);
    StarIsBuilt(q.engineScope);
    PrintedIsBuilt(q.engineScope, number, order.args);
    forall b | b in RowNumberColumns(c, q) ensures BuiltClause(Clause(q.engineScope, b)) {
      assert b == Column(Select, "*") || b == RawColumn(Select, Raw(Printed(number), order.args));
    }
  }

  lemma {:induction false} StarIsBuilt(engine: string)
    ensures BuiltClause(Clause(engine, Column(Select, "*")))
  {
  }

  lemma {:induction false} PrintedIsBuilt(engine: string, tokens: seq<Token>, args: seq<Value>)
    requires Settled(Out(tokens, args)) && Clean(tokens)
    ensures BuiltClause(Clause(engine, RawColumn(Select, Raw(Printed(tokens), args))))
  {
    hide Settled, Clean;
  }

  lemma {:induction false} BuiltAppend(q: Query, bodies: seq<Body>)
    requires Built(q.clauses) && forall b <- bodies :: BuiltClause(Clause(q.engineScope, b))
    ensures Built(Append(q, bodies).clauses)
  {
    var r := Append(q, bodies).clauses;
    forall i | 0 <= i < |r| ensures BuiltClause(r[i]) {
      if i < |q.clauses| {
        assert r[i] == q.clauses[i];
      } else {
        assert r[i] == Clause(q.engineScope, bodies[i - |q.clauses|]);
      }
    }
  }

  lemma {:induction false} QueryStands(c: Compiler, outer: Env, q: Query)
    requires Built(q.clauses)
    ensures Settled(EmitQuery(c, outer, q)) && (Aligned(EmitQuery(c, outer, q)) <==> BalancedQuery(c, q))
    decreases QuerySize(q), 2
  {
    hide Settled, Aligned, Assemble, RownumWrap, RowNumberWrap, RowNumbered, BalancedOrders, BalancedScope, EmitParts;
    var env := outer + q.variables;
    var limit, offset := LimitOf(c, q.clauses), OffsetOf(c, q.clauses);
    if Recompiled(c, q) {
      RowNumberedSize(c, q);
      BuiltRowNumbered(c, q);
      QueryStands(c, env, RowNumbered(c, q));
      RowNumberStands(EmitQuery(c, env, RowNumbered(c, q)), limit, offset);
    } else {
      var p := EmitParts(c, env, q.clauses);
      PartsStand(c, env, q.clauses);
      AggregateHidesColumns(c, env, q);
      BuiltOrders(c, q.clauses);
      AssembleStands(c, q, p);
      RownumStands(Assemble(c, q, p), limit, offset);
    }
  }

  lemma {:induction false} AggregateHidesColumns(c: Compiler, env: Env, q: Query)
    ensures var p := EmitParts(c, env, q.clauses);
      |p.table| <= 1 && (One(q.clauses, Aggregate, c.Engine()).Some? ==> p.columns == [])
  {
  }

  lemma {:induction false} PartsStand(c: Compiler, env: Env, cs: seq<Clause>)
    requires Built(cs)
    ensures var p := EmitParts(c, env, cs); PartsSettled(p) && (PartsAligned(p) <==> BalancedScope(c, cs))
    decreases ClausesSize(cs) + 1, 2
  {
    SectionClausesStand(c, env, cs, Select);
    SectionClausesStand(c, env, cs, From);
    SectionClausesStand(c, env, cs, Joins);
    SectionClausesStand(c, env, cs, Where);
    SectionClausesStand(c, env, cs, Group);
    SectionClausesStand(c, env, cs, Having);
    SectionClausesStand(c, env, cs, Combine);
  }

  lemma {:induction false} SectionClausesStand(c: Compiler, env: Env, cs: seq<Clause>, of: Component)
    requires Built(cs) && of != Insert && of != Order
    ensures var parts := EmitClauses(c, env, Chosen(c, cs, of));
      AllSettled(parts) && (AllAligned(parts) <==> BalancedClauses(c, Chosen(c, cs, of)))
    decreases ClausesSize(cs), 3
  {
    BuiltChosen(c, cs, of);
    ClausesStand(c, env, Chosen(c, cs, of), of);
  }

  lemma {:induction false} ClausesStand(c: Compiler, env: Env, cs: seq<Clause>, of: Component)
    requires Built(cs) && of != Insert && of != Order && forall cl <- cs :: Tag(cl) == of
    ensures var parts := EmitClauses(c, env, cs); AllSettled(parts) && (AllAligned(parts) <==> BalancedClauses(c, cs))
    decreases ClausesSize(cs), 2
  {
    if cs != [] {
      BuiltSubset(cs, cs[1..]);
      ClauseStands(c, env, cs[0]);
      ClausesStand(c, env, cs[1..], of);
      var parts := EmitClauses(c, env, cs);
      assert parts == [EmitClause(c, env, cs[0])] + EmitClauses(c, env, cs[1..]);
      assert Tag(cs[0]) == of;
    }
  }

  lemma {:induction false} SelectStands(c: Compiler, outer: Env, q: Query)
    requires Built(q.clauses)
    ensures Settled(EmitSelect(c, outer, q)) && (Aligned(EmitSelect(c, outer, q)) <==> BalancedQuery(c, q))
    decreases QuerySize(q), 3
  {
    QueryStands(c, outer, q);
    CommentedStands(EmitQuery(c, outer, q), q.comment);
  }

  lemma {:induction false} CommentedStands(o: Out, comment: string)
    requires Settled(o)
    ensures Settled(Commented(o, comment)) && (Aligned(Commented(o, comment)) <==> Aligned(o))
  {
    Around([Remark(comment)], o, []);
    assert [Remark(comment)] + o.sql + [] == [Remark(comment)] + o.sql;
  }

  lemma {:induction false} GroupStands(c: Compiler, env: Env, group: Query)
    requires Built(group.clauses)
    ensures var o := EmitGroup(c, env, group);
      Settled(o) && (Aligned(o) <==> BalancedGroup(c, group))
    decreases QuerySize(group), 2
  {
    var cs := Components(group.clauses, Where, c.Engine());
    BuiltChosen(c, group.clauses, Where);
    ClausesStand(c, env, cs, Where);
    ConnectStands(cs, EmitClauses(c, env, cs), false);
  }

  /** Clauses that embed nothing. */
  lemma {:induction false} LeafStands(c: Compiler, env: Env, cl: Clause)
    requires BuiltClause(cl)
    requires SubQueryOf(cl).None? && JoinOf(cl).None? && !cl.body.AggregateColumn? && !cl.body.Condition?
    ensures Settled(EmitClause(c, env, cl))
    ensures Tag(cl) != Insert && Tag(cl) != Order ==>
      (Aligned(EmitClause(c, env, cl)) <==> BalancedClause(c, cl))
  {
    hide Settled, Aligned, RawOut, CteOut, TableOut;
    AlignedIsSettled(EmitClause(c, env, cl));
    if RawOf(cl).Some? { RawStands(c, RawOf(cl).value); }
    match cl.body
    case FromTable(table) => Wordless([Ident(table)]);
    case Column(_, name) => Wordless([Ident(name)]);
    case OrderColumn(column, ascending) => Wordless([Ident(column)] + if ascending then [] else [Sym("DESC")]);
    case OrderRandom => Wordless([Sym(c.RandomFunction())]);
    case RawCte(alias, raw) => CteStands(alias, RawOut(c, raw));
    case TableCte(alias, columns, rows) =>
      TableStands(c, columns, rows);
      CteStands(alias, TableOut(c, columns, rows));
    case _ => Wordless([]);
  }

  lemma {:induction false} ClauseStands(c: Compiler, env: Env, cl: Clause)
    requires BuiltClause(cl)
    ensures Settled(EmitClause(c, env, cl))
    ensures Tag(cl) != Insert && Tag(cl) != Order ==>
      (Aligned(EmitClause(c, env, cl)) <==> BalancedClause(c, cl))
    decreases ClauseSize(cl), 1
  {
    hide Settled, Aligned, Embedded, AggregateColumnOut, JoinOut, ShapeOut, CteOut, CombineOut;
    hide EmitSelect, EmitGroup, EmitShape, BalancedQuery, BalancedClauses, BalancedGroup;
    match cl.body
    case FromQuery(q) =>
      SelectStands(c, env, q);
      EmbeddedStands(c, EmitSelect(c, env, q), q.alias);
    case QueryColumn(q) =>
      SelectStands(c, env, q);
      EmbeddedStands(c, EmitSelect(c, env, q), q.alias);
    case AggregateColumn(aggregate, column, filter) =>
      NothingStands();
      if filter.Some? { GroupStands(c, env, filter.value); }
      AggregateColumnStands(c, aggregate, column, if filter.Some? then EmitGroup(c, env, filter.value) else Nothing);
    case Join(kind, cs) =>
      SectionClausesStand(c, env, cs, From);
      SectionClausesStand(c, env, cs, Where);
      JoinStands(kind, EmitClauses(c, env, Chosen(c, cs, From)), Chosen(c, cs, Where),
                 EmitClauses(c, env, Chosen(c, cs, Where)));
    case Condition(_, _, not, shape) =>
      EmitShapeStands(c, env, cl);
      ShapeStands(c, env, not, shape, EmitShape(c, env, shape));
    case CombineQuery(operation, all, q) =>
      SelectStands(c, env, q);
      CombineStands(operation, all, EmitSelect(c, env, q));
    case QueryCte(alias, q) =>
      SelectStands(c, map[], q);
      CteStands(alias, EmitSelect(c, map[], q));
    case InsertQuery(_, _) => NothingStands();
    case _ => LeafStands(c, env, cl);
  }

  lemma {:induction false} NothingStands()
    ensures Settled(Nothing) && Aligned(Nothing)
  {
  }

  lemma {:induction false} EmitShapeStands(c: Compiler, env: Env, cl: Clause)
    requires BuiltClause(cl) && cl.body.Condition?
    ensures var shape := cl.body.shape; var inner := EmitShape(c, env, shape);
      && Settled(inner)
      && (shape.InQuery? || shape.SubQuery? || shape.Exists? || shape.Nested? ==>
            (Aligned(inner) <==> BalancedClause(c, cl)))
    decreases ClauseSize(cl), 0
  {
    match cl.body.shape
    case InQuery(_, q) => SelectStands(c, env, q);
    case SubQuery(q, _, _) => SelectStands(c, env, q);
    case Exists(q) =>
      BuiltExistsCopy(q);
      SelectStands(c, env, ExistsCopy(q));
    case Nested(group) => GroupStands(c, env, group);
    case _ =>
  }

  lemma {:induction false} EmbeddedStands(c: Compiler, sub: Out, alias: string)
    requires Settled(sub)
    ensures Settled(Embedded(c, sub, alias)) && (Aligned(Embedded(c, sub, alias)) <==> Aligned(sub))
  {
    Embedding([Sym("(")], sub, [Sym(")")] + AliasText(c, alias));
    assert [Sym("("), Inner(sub.sql), Sym(")")] + AliasText(c, alias)
        == [Sym("(")] + [Inner(sub.sql)] + ([Sym(")")] + AliasText(c, alias));
  }

  lemma {:induction false} CombineStands(operation: string, all: bool, sub: Out)
    requires Settled(sub)
    ensures var o := CombineOut(operation, all, sub); Settled(o) && (Aligned(o) <==> Aligned(sub))
  {
    var head := [Sym(S.Upper(operation))] + if all then [Sym("ALL")] else [];
    Embedding(head, sub, []);
    assert head + [Inner(sub.sql)] + [] == head + [Inner(sub.sql)];
  }

  lemma {:induction false} CteStands(alias: string, body: Out)
    requires Settled(body)
    ensures Settled(CteOut(alias, body)) && (Aligned(CteOut(alias, body)) <==> Aligned(body))
  {
    Embedding([Quoted(alias), Sym("AS (")], body, [Sym(")")]);
    assert [Quoted(alias), Sym("AS (")] + [Inner(body.sql)] + [Sym(")")] == [Quoted(alias), Sym("AS ("), Inner(body.sql), Sym(")")];
  }

  lemma {:induction false} JoinStands(kind: string, target: seq<Out>, cs: seq<Clause>, conditions: seq<Out>)
    requires |cs| == |conditions| && |target| <= 1 && AllSettled(target) && AllSettled(conditions)
    ensures var o := JoinOut(kind, target, cs, conditions);
      Settled(o) && (Aligned(o) <==> AllAligned(target) && AllAligned(conditions))
  {
    TableSectionStands(target);
    TextThen([Sym(kind)], TableSection(target));
    SectionStands("ON", cs, conditions);
    SettledCat(Cat(Word(kind), TableSection(target)), ConditionSection("ON", cs, conditions));
  }
}
