/** Query variables mean their nearest definition: when compiling a query gives the
    same statement as compiling it, with no definitions left, after every reference
    was replaced. */
module SubstitutionExact {
  import opened Ast
  import opened Dialects
  import opened Emit
  import opened Statements
  import opened Agreement
  import opened Substitution
  import C = Ctes
  import S = Strings

  // ----- the condition -----------------------------------------------------------------------

  /** A value that refers to nothing defined, or to a plain definition. */
  predicate StableValue(env: Env, v: Value) { v.Variable? && v.name in env ==> env[v.name].Plain() }

  predicate StableValues(env: Env, values: seq<Value>) { forall v <- values :: StableValue(env, v) }

  /** Oracle chooses the text of a date or time comparison by the value it is
      given, before resolving it: a reference must look like its definition. */
  predicate LooksAlike(c: Compiler, part: string, name: string, r: Value) {
    c.dialect.Oracle? ==>
      && (part == "date" ==> !r.Time?)
      && (part == "time" ==>
            !r.Time? && (S.CountChar(ValueString(r), ':') == 1 <==> S.CountChar(ValueString(Variable(name)), ':') == 1))
  }

  lemma {:induction false} LookingAlikeIsExact(c: Compiler, part: string, name: string, r: Value)
    ensures LooksAlike(c, part, name, r) <==> DateFrame(c, part, Variable(name)) == DateFrame(c, part, r)
  {
    assert |", 'HH24:MI'), 'HH24:MI:SS')"| != |", 'HH24:MI:SS'), 'HH24:MI:SS')"|;
    assert |"TO_CHAR(TO_DATE("| != |"TO_CHAR("|;
  }

  /** Every reference that reaches the output meets a plain definition, and Oracle's
      date and time comparisons look alike before and after.  Definitions that nothing
      refers to, and clauses that the dialect does not print, may be anything. */
  predicate StableQuery(c: Compiler, outer: Env, q: Query)
    decreases QuerySize(q), 2
  {
    var env := outer + q.variables;
    if Recompiled(c, q) then
      RowNumberedSize(c, q);
      StableQuery(c, env, RowNumbered(c, q))
    else StableScope(c, env, q.clauses)
  }

  predicate StableScope(c: Compiler, env: Env, cs: seq<Clause>)
    decreases ClausesSize(cs) + 1, 2
  {
    && StableClauses(c, env, Chosen(c, cs, Select)) && StableClauses(c, env, Chosen(c, cs, From))
    && StableClauses(c, env, Chosen(c, cs, Joins)) && StableClauses(c, env, Chosen(c, cs, Where))
    && StableClauses(c, env, Chosen(c, cs, Group)) && StableClauses(c, env, Chosen(c, cs, Having))
    && StableClauses(c, env, Chosen(c, cs, Combine))
  }

  predicate StableClauses(c: Compiler, env: Env, cs: seq<Clause>)
    decreases ClausesSize(cs), 2
  {
    cs == [] || (StableClause(c, env, cs[0]) && StableClauses(c, env, cs[1..]))
  }

  predicate StableGroup(c: Compiler, env: Env, g: Query)
    decreases QuerySize(g), 0
  {
    StableClauses(c, env, Components(g.clauses, Where, c.Engine()))
  }

  predicate StableClause(c: Compiler, env: Env, cl: Clause)
    decreases ClauseSize(cl), 1
  {
    match cl.body
    case FromQuery(q) => StableQuery(c, env, q)
    case QueryColumn(q) => StableQuery(c, env, q)
    case AggregateColumn(_, _, Some(g)) => StableGroup(c, env, g)
    case Join(_, cs) => StableClauses(c, env, Chosen(c, cs, From)) && StableClauses(c, env, Chosen(c, cs, Where))
    case Condition(_, _, _, shape) => StableShape(c, env, shape)
    case CombineQuery(_, _, q) => StableQuery(c, env, q)
    case QueryCte(_, q) => StableQuery(c, map[], q)
    case _ => true
  }

  predicate StableShape(c: Compiler, env: Env, shape: Shape)
    decreases ShapeSize(shape), 0
  {
    match shape
    case Basic(_, _, v) => StableValue(env, v)
    case Between(_, lower, higher) => StableValue(env, lower) && StableValue(env, higher)
    case In(_, values) => StableValues(env, values)
    case InQuery(_, q) => StableQuery(c, env, q)
    case SubQuery(q, _, v) => StableQuery(c, env, q) && StableValue(env, v)
    case Exists(q) => StableQuery(c, env, ExistsCopy(q))
    case Nested(g) => StableGroup(c, env, g)
    case DatePart(part, _, _, v) => StableDate(c, env, part, v)
    case _ => true
  }

  predicate StableDate(c: Compiler, env: Env, part: string, v: Value) {
    StableValue(env, v) && (v.Variable? && v.name in env ==> LooksAlike(c, part, v.name, env[v.name]))
  }

  /** The rows of an insert, as far as they are rows. */
  predicate StableRows(env: Env, inserts: seq<Clause>) {
    inserts == []
    || ((inserts[0].body.InsertRow? ==> StableValues(env, inserts[0].body.values)) && StableRows(env, inserts[1..]))
  }

  /** The values that have a column to go to. */
  predicate StableSet(env: Env, columns: seq<string>, values: seq<Value>)
    decreases columns
  {
    columns == [] || values == [] || (StableValue(env, values[0]) && StableSet(env, columns[1..], values[1..]))
  }

  predicate StableWrite(c: Compiler, env: Env, verb: Method, cs: seq<Clause>) {
    match verb
    case MethodInsert =>
      var inserts := Components(cs, Insert, c.Engine());
      inserts != [] ==>
        if inserts[0].body.InsertQuery? then StableQuery(c, env, inserts[0].body.query)
        else inserts[0].body.InsertRow? ==> StableRows(env, inserts)
    case MethodUpdate =>
      var cl := One(cs, Update, c.Engine());
      cl.Some? && (cl.value.body.Increment? || cl.value.body.UpdateSet?) ==>
        && (cl.value.body.UpdateSet? ==> StableSet(env, cl.value.body.columns, cl.value.body.values))
        && StableClauses(c, env, Chosen(c, cs, Where))
    case MethodDelete => StableClauses(c, env, Chosen(c, cs, Joins)) && StableClauses(c, env, Chosen(c, cs, Where))
    case MethodSelect => true
  }

  predicate StableStatement(c: Compiler, q: Query) {
    if q.verb == MethodSelect then
      var compiled := TransformAggregate(q, c.Engine());
      StableQuery(c, map[], compiled) && StableClauses(c, map[], C.Find(c.Engine(), {}, compiled.clauses).ctes)
    else
      StableWrite(c, q.variables, q.verb, q.clauses) && StableClauses(c, map[], C.Find(c.Engine(), {}, q.clauses).ctes)
  }

  // ----- values ---------------------------------------------------------------------------------

  /** A single value prints the same exactly when it is stable: a reference to a
      literal binds the literal, which the replaced query would inline, and a
      reference to a reference binds nothing that the replaced query could find. */
  lemma {:induction false} ParameterAgrees(env: Env, v: Value)
    ensures Agree(StableValue(env, v), Parameter(map[], SubstValue(env, v)), Parameter(env, v))
  {
    var a, b := Parameter(map[], SubstValue(env, v)), Parameter(env, v);
    if !StableValue(env, v) { assert a.sql[0] != b.sql[0]; }
  }

  lemma {:induction false} ParametersAgree(env: Env, values: seq<Value>)
    ensures AgreeParts(StableValues(env, values), ParameterParts(map[], SubstValues(env, values)), ParameterParts(env, values))
  {
    hide Agree, Parameter, StableValue, SubstValue;
    if values == [] {
      assert ParameterParts(map[], SubstValues(env, values)) == ParameterParts(env, values);
    } else {
      ParameterAgrees(env, values[0]);
      ParametersAgree(env, values[1..]);
      ParametersCons(env, values);
      AgreeCons(StableValue(env, values[0]), Parameter(map[], SubstValue(env, values[0])), Parameter(env, values[0]),
                StableValues(env, values[1..]), ParameterParts(map[], SubstValues(env, values[1..])), ParameterParts(env, values[1..]));
    }
  }

  lemma {:induction false} ParametersCons(env: Env, values: seq<Value>)
    requires values != []
    ensures ParameterParts(env, values) == [Parameter(env, values[0])] + ParameterParts(env, values[1..])
    ensures ParameterParts(map[], SubstValues(env, values)) ==
      [Parameter(map[], SubstValue(env, values[0]))] + ParameterParts(map[], SubstValues(env, values[1..]))
    ensures StableValues(env, values) <==> StableValue(env, values[0]) && StableValues(env, values[1..])
  {
    hide Parameter, SubstValue;
    PartsCons(env, values);
    PartsCons(map[], SubstValues(env, values));
    assert SubstValues(env, values)[1..] == SubstValues(env, values[1..]);
    hide ParameterParts, SubstValues;
    StableCons(env, values);
  }

  lemma {:induction false} PartsCons(env: Env, values: seq<Value>)
    requires values != []
    ensures ParameterParts(env, values) == [Parameter(env, values[0])] + ParameterParts(env, values[1..])
  {
    hide Parameter;
  }

  lemma {:induction false} StableCons(env: Env, values: seq<Value>)
    requires values != []
    ensures StableValues(env, values) <==> StableValue(env, values[0]) && StableValues(env, values[1..])
  {
    hide StableValue;
    assert values == [values[0]] + values[1..];
  }

  lemma {:induction false} ParameterizeAgrees(env: Env, values: seq<Value>)
    ensures Agree(StableValues(env, values), Parameterize(map[], SubstValues(env, values)), Parameterize(env, values))
  {
    ParametersAgree(env, values);
    hide Agree, AgreeParts, StableValues, SubstValues, ParameterParts;
    AgreeJoined(StableValues(env, values), ParameterParts(map[], SubstValues(env, values)), ParameterParts(env, values), ",");
  }

  /** Oracle's text around a value differs in front of it or behind it. */
  lemma {:induction false} DateAgrees(c: Compiler, env: Env, part: string, column: string, op: string, v: Value)
    ensures Agree(StableDate(c, env, part, v), DateOut(c, map[], part, column, op, SubstValue(env, v)), DateOut(c, env, part, column, op, v))
  {
    var w := SubstValue(env, v);
    var f, g := DateFrame(c, part, w), DateFrame(c, part, v);
    ParameterAgrees(env, v);
    FramesDiffer(c, part, env, v);
    hide DateFrame, Agree, LooksAlike, SubstValue, StableValue, Parameter;
    if f == g {
      FramedAgrees(StableValue(env, v), c, op, column, f, Parameter(map[], w), Parameter(env, v));
    } else {
      FramedApart(StableValue(env, v), c, op, column, f, g, Parameter(map[], w), Parameter(env, v));
    }
  }

  function Framed(c: Compiler, op: string, column: string, f: Frame, value: Out): Out {
    Out(Maybe(f.columnBefore) + [Ident(column)] + Maybe(f.columnAfter) + [OperatorToken(c, op)]
          + Maybe(f.valueBefore) + value.sql + Maybe(f.valueAfter),
        value.args)
  }

  /** How the texts around a value can differ. */
  predicate OnlyValue(f: Frame, g: Frame) {
    && f.columnBefore == g.columnBefore && f.columnAfter == g.columnAfter && f.valueBefore != "" && g.valueBefore != ""
    && f.valueAfter != "" && g.valueAfter != "" && (f.valueBefore != g.valueBefore || f.valueAfter != g.valueAfter)
  }

  lemma {:induction false} FramesDiffer(c: Compiler, part: string, env: Env, v: Value)
    ensures var w := SubstValue(env, v); var f, g := DateFrame(c, part, w), DateFrame(c, part, v);
      && (f == g || OnlyValue(f, g))
      && (StableDate(c, env, part, v) <==> StableValue(env, v) && f == g)
  {
    if v.Variable? && v.name in env {
      LookingAlikeIsExact(c, part, v.name, env[v.name]);
    }
  }

  lemma {:induction false} FramedAgrees(same: bool, c: Compiler, op: string, column: string, f: Frame, a: Out, b: Out)
    requires Agree(same, a, b)
    ensures Agree(same, Framed(c, op, column, f, a), Framed(c, op, column, f, b))
  {
    hide Agree;
    AgreeAround(same, Maybe(f.columnBefore) + [Ident(column)] + Maybe(f.columnAfter) + [OperatorToken(c, op)] + Maybe(f.valueBefore),
                a, b, Maybe(f.valueAfter));
  }

  lemma {:induction false} FramedApart(same: bool, c: Compiler, op: string, column: string, f: Frame, g: Frame, a: Out, b: Out)
    requires Agree(same, a, b) && OnlyValue(f, g)
    ensures Agree(false, Framed(c, op, column, f, a), Framed(c, op, column, g, b))
  {
    var front := Maybe(f.columnBefore) + [Ident(column)] + Maybe(f.columnAfter) + [OperatorToken(c, op)];
    var x := [Sym(f.valueBefore)] + a.sql + [Sym(f.valueAfter)];
    var y := [Sym(g.valueBefore)] + b.sql + [Sym(g.valueAfter)];
    ValueApart(same, f, g, a, b);
    hide Apart, Agree;
    ApartWithin(front, x, y, [], []);
    hide OperatorToken;
    assert front + x + [] == Framed(c, op, column, f, a).sql && front + y + [] == Framed(c, op, column, g, b).sql;
    ApartAgree(Framed(c, op, column, f, a), Framed(c, op, column, g, b));
  }

  lemma {:induction false} ApartAgree(a: Out, b: Out)
    requires Apart(a.sql, b.sql)
    ensures Agree(false, a, b)
  {
  }

  lemma {:induction false} ValueApart(same: bool, f: Frame, g: Frame, a: Out, b: Out)
    requires Agree(same, a, b) && OnlyValue(f, g)
    ensures Apart([Sym(f.valueBefore)] + a.sql + [Sym(f.valueAfter)], [Sym(g.valueBefore)] + b.sql + [Sym(g.valueAfter)])
  {
    var x := [Sym(f.valueBefore)] + a.sql + [Sym(f.valueAfter)];
    var y := [Sym(g.valueBefore)] + b.sql + [Sym(g.valueAfter)];
    if f.valueBefore != g.valueBefore {
      assert x[0] != y[0];
    } else if !same {
      ApartWithin([Sym(f.valueBefore)], a.sql, b.sql, [Sym(f.valueAfter)], [Sym(g.valueAfter)]);
    } else {
      assert x[|x| - 1] != y[|x| - 1];
    }
  }

  // ----- the sections of a SELECT ------------------------------------------------------------------

  lemma {:induction false} HeadAgrees(same: bool, c: Compiler, q: Query, a: seq<Out>, b: seq<Out>)
    requires AgreeParts(same, a, b)
    requires var cl := One(q.clauses, Aggregate, c.Engine()); cl.Some? && cl.value.body.Aggregated? ==> same
    ensures Agree(same, HeadSection(c, q, a), HeadSection(c, q, b))
  {
    hide One, Agree, TopSection, LimitOf, OffsetOf, AggregateHead;
    var cl := One(q.clauses, Aggregate, c.Engine());
    var top := TopSection(c, LimitOf(c, q.clauses), OffsetOf(c, q.clauses));
    if cl.Some? && cl.value.body.Aggregated? {
      AgreeSelf(HeadSection(c, q, a));
    } else {
      SelectHeadAgrees(same, a, b, q.distinct, top);
    }
  }

  lemma {:induction false} AgreeSelf(a: Out)
    ensures Agree(true, a, a)
  {
  }

  lemma {:induction false} SelectHeadAgrees(same: bool, a: seq<Out>, b: seq<Out>, distinct: bool, top: Out)
    requires AgreeParts(same, a, b)
    ensures Agree(same, SelectHead(a, distinct, top), SelectHead(b, distinct, top))
  {
    AgreeJoined(same, a, b, ",");
    hide Apart, Joined;
    var x, y := if a == [] then Word("*") else Joined(a, ","), if b == [] then Word("*") else Joined(b, ",");
    assert Agree(same, x, y);
    AgreeCat(true, top, top, same, x, y);
    AgreeAfter(same, [Sym("SELECT")] + if distinct then [Sym("DISTINCT")] else [], Cat(top, x), Cat(top, y));
  }

  /** Seven flags, one for each section that holds clauses. */
  datatype Flags = Flags(columns: bool, table: bool, joins: bool, wheres: bool, groups: bool, havings: bool, combines: bool) {
    predicate All() { columns && table && joins && wheres && groups && havings && combines }
  }

  ghost predicate PartsAgree(f: Flags, a: Parts, b: Parts) {
    && AgreeParts(f.columns, a.columns, b.columns) && AgreeParts(f.table, a.table, b.table)
    && AgreeParts(f.joins, a.joins, b.joins) && AgreeParts(f.wheres, a.wheres, b.wheres)
    && AgreeParts(f.groups, a.groups, b.groups) && AgreeParts(f.havings, a.havings, b.havings)
    && AgreeParts(f.combines, a.combines, b.combines)
  }

  lemma {:induction false} AssembleAgrees(f: Flags, c: Compiler, q: Query, a: Parts, b: Parts)
    requires PartsFit(c, q.clauses, a) && PartsFit(c, q.clauses, b) && PartsAgree(f, a, b) && |a.table| <= 1
    requires var cl := One(q.clauses, Aggregate, c.Engine()); cl.Some? && cl.value.body.Aggregated? ==> f.columns
    ensures Agree(f.All(), Assemble(c, q, a), Assemble(c, q, b))
  {
    hide AgreeParts, Agree, Assemble, HeadSection, TableSection, Joined, ConditionSection, Listed, Components, One, Chosen, LaterSections;
    HeadAgrees(f.columns, c, q, a.columns, b.columns);
    AgreeTable(f.table, a.table, b.table);
    AgreeAfter(f.table, [Sym("FROM")], TableSection(a.table), TableSection(b.table));
    AgreeJoined(f.joins, a.joins, b.joins, "");
    AgreeConditions(f.wheres, "WHERE", Chosen(c, q.clauses, Where), a.wheres, b.wheres);
    LaterAgree(f, c, q, a, b);
    AssembleFolds(c, q, a);
    AssembleFolds(c, q, b);
    FourAgree(f.columns, HeadSection(c, q, a.columns), HeadSection(c, q, b.columns),
              f.table, Cat(Word("FROM"), TableSection(a.table)), Cat(Word("FROM"), TableSection(b.table)),
              f.joins, Joined(a.joins, ""), Joined(b.joins, ""),
              f.wheres, ConditionSection("WHERE", Chosen(c, q.clauses, Where), a.wheres),
              ConditionSection("WHERE", Chosen(c, q.clauses, Where), b.wheres),
              f.groups && f.havings && f.combines, LaterSections(c, q, a), LaterSections(c, q, b));
  }

  /** The sections from GROUP BY on. */
  function LaterSections(c: Compiler, q: Query, p: Parts): Out
    requires PartsFit(c, q.clauses, p)
  {
    var orders := Components(q.clauses, Order, c.Engine());
    Cat(Listed("GROUP BY", p.groups, ","),
    Cat(ConditionSection("HAVING", Chosen(c, q.clauses, Having), p.havings),
        Tail(OrdersOut(OrderParts(c, orders)), LimitSection(c, orders != [], LimitOf(c, q.clauses), OffsetOf(c, q.clauses)),
             Joined(p.combines, ""))))
  }

  lemma {:induction false} AssembleFolds(c: Compiler, q: Query, p: Parts)
    requires PartsFit(c, q.clauses, p)
    ensures Assemble(c, q, p) ==
      Cat(HeadSection(c, q, p.columns), Cat(Cat(Word("FROM"), TableSection(p.table)), Cat(Joined(p.joins, ""),
      Cat(ConditionSection("WHERE", Chosen(c, q.clauses, Where), p.wheres), LaterSections(c, q, p)))))
  {
    hide HeadSection, TableSection, Joined, ConditionSection, Listed, Components, Chosen, OrdersOut, OrderParts, LimitSection,
      LimitOf, OffsetOf, Cat;
  }

  lemma {:induction false} LaterAgree(f: Flags, c: Compiler, q: Query, a: Parts, b: Parts)
    requires PartsFit(c, q.clauses, a) && PartsFit(c, q.clauses, b) && PartsAgree(f, a, b)
    ensures Agree(f.groups && f.havings && f.combines, LaterSections(c, q, a), LaterSections(c, q, b))
  {
    hide AgreeParts, Agree, Joined, ConditionSection, Listed, Components, Chosen, OrdersOut, OrderParts, LimitSection, LimitOf,
      OffsetOf, Cat, Tail;
    AgreeListed(f.groups, "GROUP BY", a.groups, b.groups, ",");
    AgreeConditions(f.havings, "HAVING", Chosen(c, q.clauses, Having), a.havings, b.havings);
    AgreeJoined(f.combines, a.combines, b.combines, "");
    var orders := Components(q.clauses, Order, c.Engine());
    var order := OrdersOut(OrderParts(c, orders));
    var page := LimitSection(c, orders != [], LimitOf(c, q.clauses), OffsetOf(c, q.clauses));
    TailAgrees(f.combines, order, page, Joined(a.combines, ""), Joined(b.combines, ""));
    var x, y := Tail(order, page, Joined(a.combines, "")), Tail(order, page, Joined(b.combines, ""));
    var h := ConditionSection("HAVING", Chosen(c, q.clauses, Having), a.havings);
    var k := ConditionSection("HAVING", Chosen(c, q.clauses, Having), b.havings);
    AgreeCat(f.havings, h, k, f.combines, x, y);
    AgreeCat(f.groups, Listed("GROUP BY", a.groups, ","), Listed("GROUP BY", b.groups, ","), f.havings && f.combines, Cat(h, x), Cat(k, y));
  }

  function Tail(order: Out, page: Out, combines: Out): Out { Cat(order, Cat(page, combines)) }

  lemma {:induction false} TailAgrees(same: bool, order: Out, page: Out, a: Out, b: Out)
    requires Agree(same, a, b)
    ensures Agree(same, Tail(order, page, a), Tail(order, page, b))
  {
    AgreeCat(true, page, page, same, a, b);
    AgreeCat(true, order, order, same, Cat(page, a), Cat(page, b));
  }

  lemma {:induction false} FourAgree(s0: bool, a0: Out, b0: Out, s1: bool, a1: Out, b1: Out, s2: bool, a2: Out, b2: Out,
                                     s3: bool, a3: Out, b3: Out, s4: bool, a4: Out, b4: Out)
    requires Agree(s0, a0, b0) && Agree(s1, a1, b1) && Agree(s2, a2, b2) && Agree(s3, a3, b3) && Agree(s4, a4, b4)
    ensures Agree(s0 && s1 && s2 && s3 && s4, Cat(a0, Cat(a1, Cat(a2, Cat(a3, a4)))), Cat(b0, Cat(b1, Cat(b2, Cat(b3, b4)))))
  {
    hide Agree, Cat;
    AgreeCat(s3, a3, b3, s4, a4, b4);
    AgreeCat(s2, a2, b2, s3 && s4, Cat(a3, a4), Cat(b3, b4));
    AgreeCat(s1, a1, b1, s2 && s3 && s4, Cat(a2, Cat(a3, a4)), Cat(b2, Cat(b3, b4)));
    AgreeCat(s0, a0, b0, s1 && s2 && s3 && s4, Cat(a1, Cat(a2, Cat(a3, a4))), Cat(b1, Cat(b2, Cat(b3, b4))));
  }

  lemma {:induction false} RownumAgrees(same: bool, a: Out, b: Out, limit: int, offset: int)
    requires Agree(same, a, b)
    ensures Agree(same, RownumWrap(a, limit, offset), RownumWrap(b, limit, offset))
  {
    hide Agree;
    var plain := Sym("SELECT * FROM (");
    var numbered := Sym("SELECT * FROM (SELECT \"results_wrapper\".*, ROWNUM \"row_num\" FROM (");
    if limit == 0 && offset == 0 {
    } else if limit == 0 {
      EmbedOne(same, numbered, a, b, Sym(") \"results_wrapper\") WHERE \"row_num\" >"), Bind(offset));
    } else if offset == 0 {
      EmbedOne(same, plain, a, b, Sym(") WHERE ROWNUM <="), Bind(limit));
    } else {
      EmbedOne(same, numbered, a, b, Sym(") \"results_wrapper\" WHERE ROWNUM <="),
               Cat(Bind(Int64(limit + offset)), Cat(Word(") WHERE \"row_num\" >"), Bind(offset))));
    }
  }

  lemma {:induction false} EmbedOne(same: bool, before: Token, a: Out, b: Out, after: Token, more: Out)
    requires Agree(same, a, b)
    ensures Agree(same, Cat(Out([before, Inner(a.sql), after], a.args), more), Cat(Out([before, Inner(b.sql), after], b.args), more))
  {
    hide Agree;
    EmbedThen(same, before, a, b, [after], more);
    assert [before, Inner(a.sql)] + [after] == [before, Inner(a.sql), after];
    assert [before, Inner(b.sql)] + [after] == [before, Inner(b.sql), after];
  }

  lemma {:induction false} EmbedThen(same: bool, before: Token, a: Out, b: Out, after: seq<Token>, more: Out)
    requires Agree(same, a, b)
    ensures Agree(same, Cat(Out([before, Inner(a.sql)] + after, a.args), more), Cat(Out([before, Inner(b.sql)] + after, b.args), more))
  {
    hide Agree;
    AgreeInner(same, [before], a, b, after);
    assert [before] + [Inner(a.sql)] + after == [before, Inner(a.sql)] + after;
    assert [before] + [Inner(b.sql)] + after == [before, Inner(b.sql)] + after;
    AgreeCat(same, Out([before, Inner(a.sql)] + after, a.args), Out([before, Inner(b.sql)] + after, b.args), true, more, more);
  }

  lemma {:induction false} RowNumberAgrees(same: bool, a: Out, b: Out, limit: int, offset: int)
    requires Agree(same, a, b)
    ensures Agree(same, RowNumberWrap(a, limit, offset), RowNumberWrap(b, limit, offset))
  {
    hide Agree, Int64;
    var after := [Sym(") AS"), Ident("results_wrapper"), Sym("WHERE"), Ident("row_num")];
    var bounds := RowNumberBounds(limit, offset);
    EmbedThen(same, Sym("SELECT * FROM ("), a, b, after, bounds);
    RowNumberIs(a, limit, offset);
    RowNumberIs(b, limit, offset);
  }

  function RowNumberBounds(limit: int, offset: int): Out {
    if limit <= 0 then Cat(Word(">="), Bind(Int64(offset + 1)))
    else Cat(Word("BETWEEN"), Cat(Bind(Int64(offset + 1)), Cat(Word("AND"), Bind(Int64(limit + offset)))))
  }

  lemma {:induction false} RowNumberIs(a: Out, limit: int, offset: int)
    ensures RowNumberWrap(a, limit, offset) ==
      Cat(Out([Sym("SELECT * FROM ("), Inner(a.sql)] + [Sym(") AS"), Ident("results_wrapper"), Sym("WHERE"), Ident("row_num")], a.args),
          RowNumberBounds(limit, offset))
  {
    hide Int64, Bind;
    assert [Sym("SELECT * FROM ("), Inner(a.sql)] + [Sym(") AS"), Ident("results_wrapper"), Sym("WHERE"), Ident("row_num")]
      == [Sym("SELECT * FROM ("), Inner(a.sql), Sym(") AS"), Ident("results_wrapper"), Sym("WHERE"), Ident("row_num")];
  }

  lemma {:induction false} WrappedAgrees(same: bool, c: Compiler, q: Query, a: Out, b: Out)
    requires Agree(same, a, b)
    ensures Agree(same, Wrapped(c, q, a), Wrapped(c, q, b))
  {
    hide Agree, RownumWrap, LimitOf, OffsetOf;
    RownumAgrees(same, a, b, LimitOf(c, q.clauses), OffsetOf(c, q.clauses));
  }

  lemma {:induction false} CommentedAgrees(same: bool, a: Out, b: Out, comment: string)
    requires Agree(same, a, b)
    ensures Agree(same, Commented(a, comment), Commented(b, comment))
  {
    hide Agree;
    AgreeAround(same, [Remark(comment)], a, b, []);
    assert [Remark(comment)] + a.sql + [] == [Remark(comment)] + a.sql;
    assert [Remark(comment)] + b.sql + [] == [Remark(comment)] + b.sql;
  }

  // ----- conditions and joins -------------------------------------------------------------------------

  lemma {:induction false} NegatedAgrees(same: bool, not: bool, a: Out, b: Out)
    requires Agree(same, a, b)
    ensures Agree(same, Negated(not, a), Negated(not, b))
  {
    hide Agree;
    AgreeAround(same, [KNot, LParen], a, b, [RParen]);
  }

  lemma {:induction false} JoinOutAgrees(t: bool, s: bool, kind: string, cs: seq<Clause>, x: seq<Out>, y: seq<Out>, a: seq<Out>, b: seq<Out>)
    requires |cs| == |a| == |b| && AgreeParts(t, x, y) && |x| <= 1 && AgreeParts(s, a, b)
    ensures Agree(t && s, JoinOut(kind, x, cs, a), JoinOut(kind, y, cs, b))
  {
    hide Agree, AgreeParts, ConditionSection, TableSection;
    AgreeTable(t, x, y);
    AgreeConditions(s, "ON", cs, a, b);
    AgreeAfter(t, [Sym(kind)], TableSection(x), TableSection(y));
    AgreeCat(t, Cat(Word(kind), TableSection(x)), Cat(Word(kind), TableSection(y)), s,
             ConditionSection("ON", cs, a), ConditionSection("ON", cs, b));
  }

  lemma {:induction false} EmbeddedAgrees(same: bool, c: Compiler, a: Out, b: Out, alias: string)
    requires Agree(same, a, b)
    ensures Agree(same, Embedded(c, a, alias), Embedded(c, b, alias))
  {
    hide Agree, AliasText;
    var after := [Sym(")")] + AliasText(c, alias);
    AgreeInner(same, [Sym("(")], a, b, after);
    assert [Sym("(")] + [Inner(a.sql)] + after == [Sym("("), Inner(a.sql), Sym(")")] + AliasText(c, alias);
    assert [Sym("(")] + [Inner(b.sql)] + after == [Sym("("), Inner(b.sql), Sym(")")] + AliasText(c, alias);
  }

  lemma {:induction false} CombineAgrees(same: bool, operation: string, all: bool, a: Out, b: Out)
    requires Agree(same, a, b)
    ensures Agree(same, CombineOut(operation, all, a), CombineOut(operation, all, b))
  {
    hide Agree, S.Upper;
    var before := [Sym(S.Upper(operation))] + if all then [Sym("ALL")] else [];
    AgreeInner(same, before, a, b, []);
    assert before + [Inner(a.sql)] + [] == before + [Inner(a.sql)] && before + [Inner(b.sql)] + [] == before + [Inner(b.sql)];
  }

  lemma {:induction false} CteAgrees(same: bool, alias: string, a: Out, b: Out)
    requires Agree(same, a, b)
    ensures Agree(same, CteOut(alias, a), CteOut(alias, b))
  {
    hide Agree;
    AgreeInner(same, [Quoted(alias), Sym("AS (")], a, b, [Sym(")")]);
    assert [Quoted(alias), Sym("AS (")] + [Inner(a.sql)] + [Sym(")")] == [Quoted(alias), Sym("AS ("), Inner(a.sql), Sym(")")];
    assert [Quoted(alias), Sym("AS (")] + [Inner(b.sql)] + [Sym(")")] == [Quoted(alias), Sym("AS ("), Inner(b.sql), Sym(")")];
  }

  lemma {:induction false} FilteredAgrees(same: bool, c: Compiler, aggregate: string, column: string, a: Out, b: Out)
    requires Agree(same, a, b)
    ensures Agree(same, AggregateColumnOut(c, aggregate, column, a), AggregateColumnOut(c, aggregate, column, b))
  {
    EmptyTogether(same, a, b);
    hide Agree, S.SplitAlias, S.Upper, AliasText;
    var (name, alias) := S.SplitAlias(column);
    var open := Sym(S.Upper(aggregate) + "(");
    if a.sql == [] {
      AgreeSelf(AggregateColumnOut(c, aggregate, column, a));
    } else if c.SupportsFilter() {
      AgreeAround(same, [open, Ident(name), Sym(") FILTER (WHERE")], a, b, [Sym(")")] + AliasText(c, alias));
      FilterIs(a.sql, [open, Ident(name), Sym(") FILTER (WHERE")], [Sym(")")], AliasText(c, alias));
      FilterIs(b.sql, [open, Ident(name), Sym(") FILTER (WHERE")], [Sym(")")], AliasText(c, alias));
    } else {
      var after := [Sym("THEN"), Ident(name), Sym("END)")];
      AgreeAround(same, [open, Sym("CASE WHEN")], a, b, after + AliasText(c, alias));
      FilterIs(a.sql, [open, Sym("CASE WHEN")], after, AliasText(c, alias));
      FilterIs(b.sql, [open, Sym("CASE WHEN")], after, AliasText(c, alias));
    }
  }

  lemma {:induction false} FilterIs(ts: seq<Token>, before: seq<Token>, after: seq<Token>, alias: seq<Token>)
    ensures before + ts + (after + alias) == before + ts + after + alias
  {
  }

  /** The shapes that print values or what they embed; `inner` is what that printed. */
  lemma {:induction false} ShapeOutAgrees(c: Compiler, env: Env, not: bool, shape: Shape, r: Shape, s: bool, a: Out, b: Out)
    requires r == SubstShape(env, shape) && Agree(s, a, b)
    requires !(shape.InQuery? || shape.SubQuery? || shape.Exists? || shape.Nested?) ==> s
    ensures Agree(s && StableOwn(c, env, shape), ShapeOut(c, map[], not, r, a), ShapeOut(c, env, not, shape, b))
  {
    hide Agree, Parameter, Parameterize, RawOut, LikeOut, DateOut, SubstValue, SubstValues, StableValue, StableValues, StableDate,
      Substituted, SubstGroup, OperatorToken, Negated;
    match shape
    case Basic(column, op, v) =>
      ParameterAgrees(env, v);
      var text := [Ident(column), OperatorToken(c, op)];
      AgreeAfter(StableValue(env, v), text, Parameter(map[], SubstValue(env, v)), Parameter(env, v));
      NegatedAgrees(StableValue(env, v), not, Cat(Text(text), Parameter(map[], SubstValue(env, v))), Cat(Text(text), Parameter(env, v)));
    case Between(column, lower, higher) => BetweenAgrees(env, column, not, lower, higher);
    case In(column, values) => InAgrees(env, column, not, values);
    case SubQuery(_, op, v) =>
      ParameterAgrees(env, v);
      AgreeInner(s, [], a, b, [OperatorToken(c, op)]);
      assert [] + [Inner(a.sql)] + [OperatorToken(c, op)] == [Inner(a.sql), OperatorToken(c, op)];
      assert [] + [Inner(b.sql)] + [OperatorToken(c, op)] == [Inner(b.sql), OperatorToken(c, op)];
      AgreeCat(s, Out([Inner(a.sql), OperatorToken(c, op)], a.args), Out([Inner(b.sql), OperatorToken(c, op)], b.args),
               StableValue(env, v), Parameter(map[], SubstValue(env, v)), Parameter(env, v));
    case InQuery(column, _) =>
      var words := [Ident(column), Sym(if not then "NOT IN" else "IN")];
      EmbedLast(s, words, a, b);
      assert words + [Inner(a.sql)] == [words[0], words[1], Inner(a.sql)];
      assert words + [Inner(b.sql)] == [words[0], words[1], Inner(b.sql)];
    case Exists(_) =>
      var word := Sym(if not then "NOT EXISTS" else "EXISTS");
      EmbedLast(s, [word], a, b);
      assert [word] + [Inner(a.sql)] == [word, Inner(a.sql)] && [word] + [Inner(b.sql)] == [word, Inner(b.sql)];
    case Nested(_) => NestedAgrees(s, not, a, b);
    case DatePart(part, column, op, v) =>
      DateAgrees(c, env, part, column, op, v);
      NegatedAgrees(StableDate(c, env, part, v), not && !DropsNot(c, part), DateOut(c, map[], part, column, op, SubstValue(env, v)),
                    DateOut(c, env, part, column, op, v));
    case _ => AgreeSelf(ShapeOut(c, env, not, shape, b));
  }

  /** The values of a shape itself. */
  predicate StableOwn(c: Compiler, env: Env, shape: Shape) {
    match shape
    case Basic(_, _, v) => StableValue(env, v)
    case Between(_, lower, higher) => StableValue(env, lower) && StableValue(env, higher)
    case In(_, values) => StableValues(env, values)
    case SubQuery(_, _, v) => StableValue(env, v)
    case DatePart(part, _, _, v) => StableDate(c, env, part, v)
    case _ => true
  }

  lemma {:induction false} EmbedLast(same: bool, before: seq<Token>, a: Out, b: Out)
    requires Agree(same, a, b)
    ensures Agree(same, Out(before + [Inner(a.sql)], a.args), Out(before + [Inner(b.sql)], b.args))
  {
    hide Agree;
    AgreeInner(same, before, a, b, []);
    assert before + [Inner(a.sql)] + [] == before + [Inner(a.sql)] && before + [Inner(b.sql)] + [] == before + [Inner(b.sql)];
  }

  lemma {:induction false} NestedAgrees(same: bool, not: bool, a: Out, b: Out)
    requires Agree(same, a, b)
    ensures var before := (if not then [KNot] else []) + [LParen];
      Agree(same, if a.sql == [] then a else Out(before + a.sql + [RParen], a.args),
                  if b.sql == [] then b else Out(before + b.sql + [RParen], b.args))
  {
    EmptyTogether(same, a, b);
    hide Agree;
    AgreeAround(same, (if not then [KNot] else []) + [LParen], a, b, [RParen]);
  }

  lemma {:induction false} BetweenAgrees(env: Env, column: string, not: bool, lower: Value, higher: Value)
    ensures Agree(StableValue(env, lower) && StableValue(env, higher),
      Cat(Text([Ident(column), KBetween(not)]),
          Cat(Parameter(map[], SubstValue(env, lower)), Cat(Text([KAnd]), Parameter(map[], SubstValue(env, higher))))),
      Cat(Text([Ident(column), KBetween(not)]), Cat(Parameter(env, lower), Cat(Text([KAnd]), Parameter(env, higher)))))
  {
    hide Agree, Parameter, SubstValue, StableValue;
    ParameterAgrees(env, lower);
    ParameterAgrees(env, higher);
    var s, t := StableValue(env, lower), StableValue(env, higher);
    var a, b := Parameter(map[], SubstValue(env, lower)), Parameter(env, lower);
    var x, y := Parameter(map[], SubstValue(env, higher)), Parameter(env, higher);
    AgreeAfter(t, [KAnd], x, y);
    AgreeCat(s, a, b, t, Cat(Text([KAnd]), x), Cat(Text([KAnd]), y));
    AgreeAfter(s && t, [Ident(column), KBetween(not)], Cat(a, Cat(Text([KAnd]), x)), Cat(b, Cat(Text([KAnd]), y)));
  }

  lemma {:induction false} InAgrees(env: Env, column: string, not: bool, values: seq<Value>)
    ensures var words := [Ident(column), Sym(if not then "NOT IN" else "IN"), Sym("(")];
      var empty := Word(if not then "1 = 1" else "1 = 0");
      Agree(StableValues(env, values),
        if SubstValues(env, values) == [] then empty else Cat(Text(words), Cat(Parameterize(map[], SubstValues(env, values)), Word(")"))),
        if values == [] then empty else Cat(Text(words), Cat(Parameterize(env, values), Word(")"))))
  {
    hide Agree, Parameterize, StableValue;
    ParameterizeAgrees(env, values);
    var words := [Ident(column), Sym(if not then "NOT IN" else "IN"), Sym("(")];
    var a, b := Parameterize(map[], SubstValues(env, values)), Parameterize(env, values);
    AgreeBefore(StableValues(env, values), a, b, [Sym(")")]);
    AgreeAfter(StableValues(env, values), words, Cat(a, Word(")")), Cat(b, Word(")")));
    if values == [] { AgreeSelf(Word(if not then "1 = 1" else "1 = 0")); }
  }

  // ----- the descent -------------------------------------------------------------------------------------

  lemma {:induction false} QueryAgrees(c: Compiler, outer: Env, q: Query)
    ensures Agree(StableQuery(c, outer, q), EmitQuery(c, map[], Substituted(outer, q)), EmitQuery(c, outer, q))
    decreases QuerySize(q), 2
  {
    var env := outer + q.variables;
    hide EmitQuery, SubstClauses, LimitOf, OffsetOf, RowNumbered, EmitParts, Substituted, Agree, StableScope;
    if Recompiled(c, q) {
      RowNumberedSize(c, q);
      QueryAgrees(c, env, RowNumbered(c, q));
      RecompiledAgrees(c, outer, q);
    } else {
      ScopeAgrees(c, env, q.clauses);
      AssembledAgrees(c, outer, q);
    }
  }

  lemma {:induction false} RecompiledAgrees(c: Compiler, outer: Env, q: Query)
    requires Recompiled(c, q)
    requires var env := outer + q.variables; var n := RowNumbered(c, q);
      Agree(StableQuery(c, env, n), EmitQuery(c, map[], Substituted(env, n)), EmitQuery(c, env, n))
    ensures Agree(StableQuery(c, outer + q.variables, RowNumbered(c, q)),
                  EmitQuery(c, map[], Substituted(outer, q)), EmitQuery(c, outer, q))
  {
    var s, n, env := Substituted(outer, q), RowNumbered(c, q), outer + q.variables;
    SubstDefinition(outer, q);
    LimitsOfSubst(c, env, q.clauses);
    RowNumberedOfSubst(c, outer, q);
    RowNumberedKeeps(c, q);
    PushTwice(outer, n);
    hide RowNumbered, SubstClauses, LimitOf, OffsetOf, RowNumberWrap, EmitQuery, Substituted, Agree, StableQuery;
    EmitRecompiled(c, outer, q);
    EmitRecompiled(c, map[], s);
    RowNumberAgrees(StableQuery(c, env, n), EmitQuery(c, map[], Substituted(env, n)), EmitQuery(c, env, n),
                    LimitOf(c, q.clauses), OffsetOf(c, q.clauses));
  }

  /** The flags of a scope. */
  function ScopeFlags(c: Compiler, env: Env, cs: seq<Clause>): (f: Flags)
    ensures f.All() <==> StableScope(c, env, cs)
  {
    Flags(StableClauses(c, env, Chosen(c, cs, Select)), StableClauses(c, env, Chosen(c, cs, From)),
          StableClauses(c, env, Chosen(c, cs, Joins)), StableClauses(c, env, Chosen(c, cs, Where)),
          StableClauses(c, env, Chosen(c, cs, Group)), StableClauses(c, env, Chosen(c, cs, Having)),
          StableClauses(c, env, Chosen(c, cs, Combine)))
  }

  lemma {:induction false} AssembledAgrees(c: Compiler, outer: Env, q: Query)
    requires !Recompiled(c, q)
    requires var env := outer + q.variables;
      PartsAgree(ScopeFlags(c, env, q.clauses), EmitParts(c, map[], SubstClauses(env, q.clauses)), EmitParts(c, env, q.clauses))
    ensures Agree(StableScope(c, outer + q.variables, q.clauses), EmitQuery(c, map[], Substituted(outer, q)), EmitQuery(c, outer, q))
  {
    var s, env := Substituted(outer, q), outer + q.variables;
    var a, b := EmitParts(c, map[], SubstClauses(env, q.clauses)), EmitParts(c, env, q.clauses);
    SubstDefinition(outer, q);
    LimitsOfSubst(c, env, q.clauses);
    SubstitutedFits(c, outer, q, a);
    OneTable(c, env, q.clauses);
    NoColumns(c, env, q.clauses);
    hide Assemble, SubstClauses, LimitOf, OffsetOf, RownumWrap, EmitParts, EmitQuery, Substituted, Agree, PartsAgree, ScopeFlags,
      StableScope, One;
    EmitAssembled(c, outer, q);
    EmitAssembled(c, map[], s);
    AssembleAgrees(ScopeFlags(c, env, q.clauses), c, q, a, b);
    WrappedAgrees(StableScope(c, env, q.clauses), c, q, Assemble(c, q, a), Assemble(c, q, b));
  }

  /** The replaced query is assembled like the query itself. */
  lemma {:induction false} SubstitutedFits(c: Compiler, outer: Env, q: Query, p: Parts)
    requires PartsFit(c, Substituted(outer, q).clauses, p)
    ensures PartsFit(c, q.clauses, p) && Assemble(c, Substituted(outer, q), p) == Assemble(c, q, p)
  {
    var env := outer + q.variables;
    ChosenOfSubst(c, env, q.clauses, Where);
    ChosenOfSubst(c, env, q.clauses, Having);
    hide Assemble, Chosen;
    AssembleOfSubst(c, outer, q, p);
  }

  lemma {:induction false} OneTable(c: Compiler, env: Env, cs: seq<Clause>)
    ensures |EmitParts(c, map[], SubstClauses(env, cs)).table| <= 1
  {
    hide EmitClauses;
  }

  lemma {:induction false} NoColumns(c: Compiler, env: Env, cs: seq<Clause>)
    ensures One(cs, Aggregate, c.Engine()).Some? ==> ScopeFlags(c, env, cs).columns
  {
    hide One;
  }

  lemma {:induction false} ScopeAgrees(c: Compiler, env: Env, cs: seq<Clause>)
    ensures PartsAgree(ScopeFlags(c, env, cs), EmitParts(c, map[], SubstClauses(env, cs)), EmitParts(c, env, cs))
    decreases ClausesSize(cs) + 1, 2
  {
    hide AgreeParts, StableClauses, EmitClauses, Chosen;
    SectionAgrees(c, env, cs, Select);
    SectionAgrees(c, env, cs, From);
    SectionAgrees(c, env, cs, Joins);
    SectionAgrees(c, env, cs, Where);
    SectionAgrees(c, env, cs, Group);
    SectionAgrees(c, env, cs, Having);
    SectionAgrees(c, env, cs, Combine);
  }

  lemma {:induction false} SectionAgrees(c: Compiler, env: Env, cs: seq<Clause>, of: Component)
    ensures AgreeParts(StableClauses(c, env, Chosen(c, cs, of)),
                       EmitClauses(c, map[], Chosen(c, SubstClauses(env, cs), of)), EmitClauses(c, env, Chosen(c, cs, of)))
    decreases ClausesSize(cs), 3
  {
    ChosenOfSubst(c, env, cs, of);
    ClausesAgree(c, env, Chosen(c, cs, of));
  }

  lemma {:induction false} ClausesAgree(c: Compiler, env: Env, cs: seq<Clause>)
    ensures AgreeParts(StableClauses(c, env, cs), EmitClauses(c, map[], SubstClauses(env, cs)), EmitClauses(c, env, cs))
    decreases ClausesSize(cs), 2
  {
    hide EmitClause, SubstClause, StableClause, Agree;
    if cs != [] {
      SubstCons(env, cs);
      ClauseAgrees(c, env, cs[0]);
      ClausesAgree(c, env, cs[1..]);
      AgreeCons(StableClause(c, env, cs[0]), EmitClause(c, map[], SubstClause(env, cs[0])), EmitClause(c, env, cs[0]),
                StableClauses(c, env, cs[1..]), EmitClauses(c, map[], SubstClauses(env, cs[1..])), EmitClauses(c, env, cs[1..]));
    }
  }

  lemma {:induction false} GroupAgrees(c: Compiler, env: Env, g: Query)
    ensures Agree(StableGroup(c, env, g), EmitGroup(c, map[], SubstGroup(env, g)), EmitGroup(c, env, g))
    decreases QuerySize(g), 2
  {
    var cs := Components(g.clauses, Where, c.Engine());
    ComponentsOfSubst(env, g.clauses, Where, c.Engine());
    ClausesAgree(c, env, cs);
    hide Connect, StableClauses, Agree, AgreeParts, EmitClauses, SubstClauses;
    var a, b := EmitClauses(c, map[], SubstClauses(env, cs)), EmitClauses(c, env, cs);
    ConnectOfSubst(env, cs, a, false);
    AgreeConnect(StableClauses(c, env, cs), cs, a, b, false);
  }

  lemma {:induction false} SelectAgrees(c: Compiler, outer: Env, q: Query)
    ensures Agree(StableQuery(c, outer, q), EmitSelect(c, map[], Substituted(outer, q)), EmitSelect(c, outer, q))
    decreases QuerySize(q), 3
  {
    QueryAgrees(c, outer, q);
    hide EmitQuery, Agree, StableQuery;
    CommentedAgrees(StableQuery(c, outer, q), EmitQuery(c, map[], Substituted(outer, q)), EmitQuery(c, outer, q), q.comment);
  }

  lemma {:induction false} ClauseAgrees(c: Compiler, env: Env, cl: Clause)
    ensures Agree(StableClause(c, env, cl), EmitClause(c, map[], SubstClause(env, cl)), EmitClause(c, env, cl))
    decreases ClauseSize(cl), 1
  {
    hide Agree, Chosen, StableQuery, StableGroup, StableClauses, StableShape, EmitSelect, EmitGroup, EmitClauses, EmitShape, ShapeOut, JoinOut,
      Embedded, CombineOut, CteOut, AggregateColumnOut, Substituted, SubstGroup, SubstClauses, SubstShape, SubstFilter;
    match cl.body
    case FromQuery(q) =>
      SelectAgrees(c, env, q);
      AliasOfSubst(env, q);
      EmbeddedAgrees(StableQuery(c, env, q), c, EmitSelect(c, map[], Substituted(env, q)), EmitSelect(c, env, q), q.alias);
    case QueryColumn(q) =>
      SelectAgrees(c, env, q);
      AliasOfSubst(env, q);
      EmbeddedAgrees(StableQuery(c, env, q), c, EmitSelect(c, map[], Substituted(env, q)), EmitSelect(c, env, q), q.alias);
    case AggregateColumn(aggregate, column, filter) =>
      if filter.Some? { GroupAgrees(c, env, filter.value); }
      FilterClauseAgrees(c, env, cl);
    case Join(kind, cs) =>
      SectionAgrees(c, env, cs, From);
      SectionAgrees(c, env, cs, Where);
      JoinClauseAgrees(c, env, cl);
    case Condition(_, _, not, shape) =>
      ShapeAgrees(c, env, not, shape);
    case CombineQuery(operation, all, q) =>
      SelectAgrees(c, env, q);
      CombineAgrees(StableQuery(c, env, q), operation, all, EmitSelect(c, map[], Substituted(env, q)), EmitSelect(c, env, q));
    case QueryCte(alias, q) =>
      SelectAgrees(c, map[], q);
      CteAgrees(StableQuery(c, map[], q), alias, EmitSelect(c, map[], Substituted(map[], q)), EmitSelect(c, map[], q));
    case _ => LeafAgrees(c, env, cl);
  }

  lemma {:induction false} LeafAgrees(c: Compiler, env: Env, cl: Clause)
    requires SubQueryOf(cl).None? || cl.body.InsertQuery?
    requires GroupOf(cl).None? && JoinOf(cl).None? && !cl.body.Condition?
    ensures StableClause(c, env, cl)
    ensures Agree(true, EmitClause(c, map[], SubstClause(env, cl)), EmitClause(c, env, cl))
  {
    hide RawOut, TableOut, CteOut, OrderOut, Substituted, SubstValues;
  }

  lemma {:induction false} FilterClauseAgrees(c: Compiler, env: Env, cl: Clause)
    requires cl.body.AggregateColumn?
    requires cl.body.filter.Some? ==>
      var g := cl.body.filter.value; Agree(StableGroup(c, env, g), EmitGroup(c, map[], SubstGroup(env, g)), EmitGroup(c, env, g))
    ensures Agree(StableClause(c, env, cl), EmitClause(c, map[], SubstClause(env, cl)), EmitClause(c, env, cl))
  {
    hide Agree, AggregateColumnOut, EmitGroup, SubstGroup, StableGroup;
    var AggregateColumn(aggregate, column, filter) := cl.body;
    if filter.Some? {
      var g := filter.value;
      FilteredAgrees(StableGroup(c, env, g), c, aggregate, column, EmitGroup(c, map[], SubstGroup(env, g)), EmitGroup(c, env, g));
    } else {
      AgreeSelf(AggregateColumnOut(c, aggregate, column, Nothing));
    }
  }

  lemma {:induction false} JoinClauseAgrees(c: Compiler, env: Env, cl: Clause)
    requires cl.body.Join?
    requires var cs := cl.body.clauses; var r := SubstClauses(env, cs);
      && AgreeParts(StableClauses(c, env, Chosen(c, cs, From)), EmitClauses(c, map[], Chosen(c, r, From)), EmitClauses(c, env, Chosen(c, cs, From)))
      && AgreeParts(StableClauses(c, env, Chosen(c, cs, Where)), EmitClauses(c, map[], Chosen(c, r, Where)), EmitClauses(c, env, Chosen(c, cs, Where)))
    ensures Agree(StableClause(c, env, cl), EmitClause(c, map[], SubstClause(env, cl)), EmitClause(c, env, cl))
  {
    hide Connect, Chosen, EmitClauses, SubstClauses, Agree, AgreeParts, StableClauses, JoinOut;
    var Join(kind, cs) := cl.body;
    var r := SubstClauses(env, cs);
    ChosenOfSubst(c, env, cs, Where);
    var x, y := EmitClauses(c, map[], Chosen(c, r, From)), EmitClauses(c, env, Chosen(c, cs, From));
    var a, b := EmitClauses(c, map[], Chosen(c, r, Where)), EmitClauses(c, env, Chosen(c, cs, Where));
    OneTarget(c, r);
    JoinOfSubst(c, env, kind, cs, x, a);
    JoinOutAgrees(StableClauses(c, env, Chosen(c, cs, From)), StableClauses(c, env, Chosen(c, cs, Where)), kind,
                  Chosen(c, cs, Where), x, y, a, b);
  }

  lemma {:induction false} OneTarget(c: Compiler, cs: seq<Clause>)
    ensures |Chosen(c, cs, From)| <= 1
  {
  }

  lemma {:induction false} JoinOfSubst(c: Compiler, env: Env, kind: string, cs: seq<Clause>, x: seq<Out>, a: seq<Out>)
    requires |a| == |Chosen(c, cs, Where)| && Chosen(c, SubstClauses(env, cs), Where) == SubstClauses(env, Chosen(c, cs, Where))
    ensures JoinOut(kind, x, Chosen(c, SubstClauses(env, cs), Where), a) == JoinOut(kind, x, Chosen(c, cs, Where), a)
  {
    hide Connect, Chosen, SubstClauses;
    ConnectOfSubst(env, Chosen(c, cs, Where), a, false);
  }

  lemma {:induction false} ShapeAgrees(c: Compiler, env: Env, not: bool, shape: Shape)
    ensures var r := SubstShape(env, shape);
      Agree(StableShape(c, env, shape), ShapeOut(c, map[], not, r, EmitShape(c, map[], r)), ShapeOut(c, env, not, shape, EmitShape(c, env, shape)))
    decreases ShapeSize(shape), 0
  {
    hide Agree, ShapeOut, EmitSelect, EmitGroup, StableQuery, StableGroup, StableValue, StableValues, StableDate, Substituted, SubstGroup,
      SubstValue, SubstValues;
    var r := SubstShape(env, shape);
    match shape
    case InQuery(_, q) =>
      SelectAgrees(c, env, q);
      ShapeOutAgrees(c, env, not, shape, r, StableQuery(c, env, q), EmitShape(c, map[], r), EmitShape(c, env, shape));
    case SubQuery(q, _, v) =>
      SelectAgrees(c, env, q);
      ShapeOutAgrees(c, env, not, shape, r, StableQuery(c, env, q), EmitShape(c, map[], r), EmitShape(c, env, shape));
    case Exists(q) =>
      ExistsCopyOfSubst(env, q);
      SelectAgrees(c, env, ExistsCopy(q));
      ShapeOutAgrees(c, env, not, shape, r, StableQuery(c, env, ExistsCopy(q)), EmitShape(c, map[], r), EmitShape(c, env, shape));
    case Nested(g) =>
      GroupAgrees(c, env, g);
      ShapeOutAgrees(c, env, not, shape, r, StableGroup(c, env, g), EmitShape(c, map[], r), EmitShape(c, env, shape));
    case _ =>
      AgreeSelf(Nothing);
      ShapeOutAgrees(c, env, not, shape, r, true, Nothing, Nothing);
  }

  // ----- whole statements ------------------------------------------------------------------------------

  lemma {:induction false} WithAgrees(c: Compiler, same: bool, a: Out, b: Out, env: Env, cs: seq<Clause>)
    requires CteFormed(cs) && Agree(same, a, b)
    ensures Agree(same && StableClauses(c, map[], C.Find(c.Engine(), {}, cs).ctes), WithCtes(c, a, SubstClauses(env, cs)), WithCtes(c, b, cs))
  {
    var e := c.Engine();
    var ctes := C.Find(e, {}, cs).ctes;
    FindOfSubst(e, {}, env, cs);
    hide StableClauses, SubstClauses, EmitClauses, Agree, C.Find, AgreeParts, CteFormed;
    assert C.Find(e, {}, SubstClauses(env, cs)).ctes == SubstClauses(map[], ctes);
    ClausesAgree(c, map[], ctes);
    if ctes == [] {
      NothingReplaced();
      NothingStable(c);
    } else {
      var stable := StableClauses(c, map[], ctes);
      var x, y := EmitClauses(c, map[], SubstClauses(map[], ctes)), EmitClauses(c, map[], ctes);
      AgreeJoined(stable, x, y, ",");
      hide Joined;
      AgreeCat(stable, Joined(x, ","), Joined(y, ","), same, a, b);
      AgreeAfter(stable && same, [Sym("WITH")], Cat(Joined(x, ","), a), Cat(Joined(y, ","), b));
    }
  }

  lemma {:induction false} NothingStable(c: Compiler)
    ensures StableClauses(c, map[], [])
  {
  }

  lemma {:induction false} WhereAgrees(c: Compiler, env: Env, cs: seq<Clause>)
    ensures Agree(StableClauses(c, env, Chosen(c, cs, Where)), WhereSection(c, map[], SubstClauses(env, cs)), WhereSection(c, env, cs))
  {
    ChosenOfSubst(c, env, cs, Where);
    SectionAgrees(c, env, cs, Where);
    hide Connect, Chosen, EmitClauses, SubstClauses, Agree, AgreeParts, StableClauses;
    var a, b := EmitClauses(c, map[], Chosen(c, SubstClauses(env, cs), Where)), EmitClauses(c, env, Chosen(c, cs, Where));
    ConnectOfSubst(env, Chosen(c, cs, Where), a, false);
    AgreeConditions(StableClauses(c, env, Chosen(c, cs, Where)), "WHERE", Chosen(c, cs, Where), a, b);
  }

  lemma {:induction false} RowAgrees(env: Env, values: seq<Value>)
    ensures Agree(StableValues(env, values), RowValues(map[], SubstValues(env, values)), RowValues(env, values))
  {
    ParameterizeAgrees(env, values);
    hide Agree, Parameterize, StableValues, SubstValues;
    var a, b := Parameterize(map[], SubstValues(env, values)), Parameterize(env, values);
    AgreeBefore(StableValues(env, values), a, b, [Sym(")")]);
    AgreeAfter(StableValues(env, values), [Sym("(")], Cat(a, Word(")")), Cat(b, Word(")")));
  }

  lemma {:induction false} RemainingAgree(c: Compiler, env: Env, table: seq<Token>, inserts: seq<Clause>)
    ensures Agree(StableRows(env, inserts), RemainingRows(c, map[], table, SubstClauses(env, inserts)), RemainingRows(c, env, table, inserts))
  {
    hide Agree, RowValues, SubstClause, SubstClauses, InsertColumns, SubstValues, Cat, StableValues;
    if inserts == [] {
      SubstNothing(env);
      AgreeSelf(RemainingRows(c, env, table, inserts));
    } else {
      RemainingAgree(c, env, table, inserts[1..]);
      SubstCons(env, inserts);
      WriteKindOfSubst(env, inserts[0]);
      var a, b := RemainingRows(c, map[], table, SubstClauses(env, inserts[1..])), RemainingRows(c, env, table, inserts[1..]);
      if inserts[0].body.InsertRow? {
        var InsertRow(columns, values, _) := inserts[0].body;
        var head := if c.dialect.Oracle? then Text([Sym("INTO")] + table + InsertColumns(columns) + [Sym("VALUES")]) else Word(",");
        var x, y := RowValues(map[], SubstValues(env, values)), RowValues(env, values);
        RowAgrees(env, values);
        AgreeCat(true, head, head, StableValues(env, values), x, y);
        AgreeCat(StableValues(env, values), Cat(head, x), Cat(head, y), StableRows(env, inserts[1..]), a, b);
      } else {
        var gap := Text([Fault(NoInsert)]);
        AgreeCat(true, gap, gap, StableRows(env, inserts[1..]), a, b);
      }
    }
  }

  lemma {:induction false} SubstNothing(env: Env)
    ensures SubstClauses(env, []) == []
  {
  }

  lemma {:induction false} SetAgrees(env: Env, columns: seq<string>, values: seq<Value>)
    ensures AgreeParts(StableSet(env, columns, values), SetParts(map[], columns, SubstValues(env, values)), SetParts(env, columns, values))
    decreases columns
  {
    hide Agree, Parameter, SubstValue, StableValue;
    if columns != [] {
      var s := values == [] || StableValue(env, values[0]);
      var rest := if values == [] then [] else values[1..];
      SetAgrees(env, columns[1..], rest);
      if values != [] {
        ParameterAgrees(env, values[0]);
        AgreeAfter(s, [Ident(columns[0]), Sym("=")], Parameter(map[], SubstValue(env, values[0])), Parameter(env, values[0]));
        assert SubstValues(env, values)[1..] == SubstValues(env, values[1..]);
      } else {
        AgreeSelf(Text([Ident(columns[0]), Sym("="), Fault(NoValue)]));
      }
      hide SubstValues;
      AgreeCons(s, SetParts(map[], columns, SubstValues(env, values))[0], SetParts(env, columns, values)[0],
                StableSet(env, columns[1..], rest), SetParts(map[], columns[1..], SubstValues(env, rest)), SetParts(env, columns[1..], rest));
    }
  }

  lemma {:induction false} UpdateAgrees(c: Compiler, env: Env, cs: seq<Clause>)
    ensures Agree(StableWrite(c, env, MethodUpdate, cs), EmitUpdate(c, map[], SubstClauses(env, cs)), EmitUpdate(c, env, cs))
  {
    hide WriteTable, WhereSection, One, SubstClause, SubstClauses, SetParts, StableClauses, IncrementOut, Agree, AgreeParts, StableSet,
      SubstValues, Chosen;
    TargetOfSubst(c, env, cs);
    WhereAgrees(c, env, cs);
    OneOfSubst(env, cs, Update, c.Engine());
    var u := One(cs, Update, c.Engine());
    if u.Some? { WriteKindOfSubst(env, u.value); }
    if u.Some? && (u.value.body.Increment? || u.value.body.UpdateSet?) {
      SetSectionAgrees(env, u.value);
      UpdateChain(StableSection(env, u.value.body), StableClauses(c, env, Chosen(c, cs, Where)), WriteTable(c, cs),
                  SetSection(map[], SubstClause(env, u.value).body), SetSection(env, u.value.body),
                  WhereSection(c, map[], SubstClauses(env, cs)), WhereSection(c, env, cs));
    } else {
      AgreeSelf(EmitUpdate(c, env, cs));
    }
  }

  predicate StableSection(env: Env, body: Body) { body.UpdateSet? ==> StableSet(env, body.columns, body.values) }

  lemma {:induction false} SetSectionAgrees(env: Env, cl: Clause)
    requires cl.body.Increment? || cl.body.UpdateSet?
    ensures var r := SubstClause(env, cl);
      (r.body.Increment? || r.body.UpdateSet?) && Agree(StableSection(env, cl.body), SetSection(map[], r.body), SetSection(env, cl.body))
  {
    hide Agree, AgreeParts, SetParts, IncrementOut, StableSet, SubstValues;
    if cl.body.UpdateSet? {
      var UpdateSet(columns, values) := cl.body;
      SetAgrees(env, columns, values);
      AgreeJoined(StableSet(env, columns, values), SetParts(map[], columns, SubstValues(env, values)), SetParts(env, columns, values), ",");
    } else {
      AgreeSelf(SetSection(env, cl.body));
    }
  }

  lemma {:induction false} UpdateChain(s: bool, t: bool, table: Out, a: Out, b: Out, x: Out, y: Out)
    requires Agree(s, a, b) && Agree(t, x, y)
    ensures Agree(s && t, Cat(Word("UPDATE"), Cat(table, Cat(Word("SET"), Cat(a, x)))), Cat(Word("UPDATE"), Cat(table, Cat(Word("SET"), Cat(b, y)))))
  {
    hide Agree, Cat;
    AgreeCat(s, a, b, t, x, y);
    AgreeCat(true, Word("SET"), Word("SET"), s && t, Cat(a, x), Cat(b, y));
    AgreeCat(true, table, table, s && t, Cat(Word("SET"), Cat(a, x)), Cat(Word("SET"), Cat(b, y)));
    AgreeCat(true, Word("UPDATE"), Word("UPDATE"), s && t,
             Cat(table, Cat(Word("SET"), Cat(a, x))), Cat(table, Cat(Word("SET"), Cat(b, y))));
  }

  lemma {:induction false} DeleteAgrees(c: Compiler, env: Env, cs: seq<Clause>)
    ensures Agree(StableWrite(c, env, MethodDelete, cs), EmitDelete(c, map[], SubstClauses(env, cs)), EmitDelete(c, env, cs))
  {
    hide WriteTable, WhereSection, TargetAlias, StableClauses, Chosen, EmitClauses, SubstClauses, Agree, AgreeParts, Joined;
    TargetOfSubst(c, env, cs);
    WhereAgrees(c, env, cs);
    SectionAgrees(c, env, cs, Joins);
    var s, t := StableClauses(c, env, Chosen(c, cs, Joins)), StableClauses(c, env, Chosen(c, cs, Where));
    var a, b := JoinsSection(c, map[], SubstClauses(env, cs)), JoinsSection(c, env, cs);
    AgreeJoined(s, EmitClauses(c, map[], Chosen(c, SubstClauses(env, cs), Joins)), EmitClauses(c, env, Chosen(c, cs, Joins)), "");
    EmptyTogether(s, a, b);
    hide JoinsSection;
    var table := WriteTable(c, cs);
    var front := Cat(Word("DELETE FROM"), table);
    var target := if TargetAlias(c, cs) != "" then [Quoted(TargetAlias(c, cs))] else table.sql;
    AgreeCat(true, front, front, s, a, b);
    AgreeCat(true, table, table, s, a, b);
    AgreeAfter(s, [Sym("DELETE")] + target + [Sym("FROM")], Cat(table, a), Cat(table, b));
    var head := Text([Sym("DELETE")] + target + [Sym("FROM")]);
    var x := if a.sql == [] then Cat(front, a) else Cat(head, Cat(table, a));
    var y := if b.sql == [] then Cat(front, b) else Cat(head, Cat(table, b));
    AgreeCat(s, x, y, t, WhereSection(c, map[], SubstClauses(env, cs)), WhereSection(c, env, cs));
  }

  lemma {:induction false} InsertAgrees(c: Compiler, env: Env, cs: seq<Clause>)
    ensures Agree(StableWrite(c, env, MethodInsert, cs), EmitInsert(c, map[], SubstClauses(env, cs)), EmitInsert(c, env, cs))
  {
    hide SubstClauses, EmitInsert, Agree, StableQuery, StableRows, Components;
    var inserts := Components(cs, Insert, c.Engine());
    if inserts == [] || !(inserts[0].body.InsertQuery? || inserts[0].body.InsertRow?) {
      NothingInserted(c, env, cs);
    } else if inserts[0].body.InsertQuery? {
      InsertedAgrees(c, env, cs);
    } else {
      RowsAgree(c, env, cs);
    }
  }

  lemma {:induction false} NothingInserted(c: Compiler, env: Env, cs: seq<Clause>)
    requires var inserts := Components(cs, Insert, c.Engine());
      inserts == [] || !(inserts[0].body.InsertQuery? || inserts[0].body.InsertRow?)
    ensures Agree(true, EmitInsert(c, map[], SubstClauses(env, cs)), EmitInsert(c, env, cs))
  {
    hide WriteTable, SubstClause, SubstClauses, Components, Cat;
    var inserts := Components(cs, Insert, c.Engine());
    TargetOfSubst(c, env, cs);
    ComponentsOfSubst(env, cs, Insert, c.Engine());
    if inserts == [] {
      SubstNothing(env);
    } else {
      SubstCons(env, inserts);
      WriteKindOfSubst(env, inserts[0]);
    }
  }

  lemma {:induction false} InsertedAgrees(c: Compiler, env: Env, cs: seq<Clause>)
    requires var inserts := Components(cs, Insert, c.Engine()); inserts != [] && inserts[0].body.InsertQuery?
    ensures Agree(StableQuery(c, env, Components(cs, Insert, c.Engine())[0].body.query),
                  EmitInsert(c, map[], SubstClauses(env, cs)), EmitInsert(c, env, cs))
  {
    hide WriteTable, ConflictTail, InsertStart, SubstClause, SubstClauses, InsertColumns, Agree, StableQuery, EmitSelect, Components, Cat,
      SubstValues;
    var inserts := Components(cs, Insert, c.Engine());
    TargetOfSubst(c, env, cs);
    ComponentsOfSubst(env, cs, Insert, c.Engine());
    SubstCons(env, inserts);
    SubstLength(env, inserts);
    WriteKindOfSubst(env, inserts[0]);
    var InsertQuery(columns, q) := inserts[0].body;
    SelectAgrees(c, env, q);
    InsertChain(StableQuery(c, env, q), [InsertStart(c, cs, false)], WriteTable(c, cs), InsertColumns(columns),
                EmitSelect(c, map[], Substituted(env, q)), EmitSelect(c, env, q),
                true, Text(ConflictTail(c, cs)), Text(ConflictTail(c, cs)));
  }

  lemma {:induction false} SubstLength(env: Env, cs: seq<Clause>)
    ensures |SubstClauses(env, cs)| == |cs|
  {
  }

  lemma {:induction false} RowsAgree(c: Compiler, env: Env, cs: seq<Clause>)
    requires var inserts := Components(cs, Insert, c.Engine()); inserts != [] && inserts[0].body.InsertRow?
    ensures Agree(StableRows(env, Components(cs, Insert, c.Engine())), EmitInsert(c, map[], SubstClauses(env, cs)), EmitInsert(c, env, cs))
  {
    hide WriteTable, ConflictTail, InsertStart, SubstClause, SubstClauses, RowValues, RemainingRows, InsertColumns, Agree,
      StableValues, SubstValues, Components, Cat, LastIdTail;
    var e := c.Engine();
    var inserts := Components(cs, Insert, e);
    TargetOfSubst(c, env, cs);
    ComponentsOfSubst(env, cs, Insert, e);
    SubstCons(env, inserts);
    SubstLength(env, inserts);
    WriteKindOfSubst(env, inserts[0]);
    var InsertRow(columns, values, returnId) := inserts[0].body;
    var multi := |inserts| > 1;
    var tail := Text(ConflictTail(c, cs));
    var table := WriteTable(c, cs);
    RowAgrees(env, values);
    RemainingAgree(c, env, table.sql, inserts[1..]);
    var s, t := StableValues(env, values), StableRows(env, inserts[1..]);
    var a, b := RemainingRows(c, map[], table.sql, SubstClauses(env, inserts[1..])), RemainingRows(c, env, table.sql, inserts[1..]);
    AgreeCat(t, a, b, true, tail, tail);
    var end := Cat(tail, Text(LastIdTail(c, returnId)));
    if !multi { NoRows(env, inserts); }
    InsertChain(s, [InsertStart(c, cs, multi)], table, InsertColumns(columns) + [Sym("VALUES")],
                RowValues(map[], SubstValues(env, values)), RowValues(env, values),
                t, if multi then Cat(a, tail) else end, if multi then Cat(b, tail) else end);
  }

  lemma {:induction false} NoRows(env: Env, inserts: seq<Clause>)
    requires |inserts| == 1
    ensures StableRows(env, inserts[1..])
  {
  }

  lemma {:induction false} InsertChain(s: bool, start: seq<Token>, table: Out, columns: seq<Token>, a: Out, b: Out, t: bool, x: Out, y: Out)
    requires Agree(s, a, b) && if t then x == y else Agree(t, x, y)
    ensures Agree(s && t, Cat(Text(start), Cat(table, Cat(Text(columns), Cat(a, x)))), Cat(Text(start), Cat(table, Cat(Text(columns), Cat(b, y)))))
  {
    if t { AgreeSelf(x); }
    hide Agree, Cat;
    AgreeCat(s, a, b, t, x, y);
    AgreeAfter(s && t, columns, Cat(a, x), Cat(b, y));
    AgreeCat(true, table, table, s && t, Cat(Text(columns), Cat(a, x)), Cat(Text(columns), Cat(b, y)));
    AgreeAfter(s && t, start, Cat(table, Cat(Text(columns), Cat(a, x))), Cat(table, Cat(Text(columns), Cat(b, y))));
  }

  lemma {:induction false} WriteAgrees(c: Compiler, env: Env, verb: Method, cs: seq<Clause>)
    ensures Agree(StableWrite(c, env, verb, cs), EmitWrite(c, map[], verb, SubstClauses(env, cs)), EmitWrite(c, env, verb, cs))
  {
    hide Agree, StableWrite, EmitInsert, EmitUpdate, EmitDelete, SubstClauses;
    match verb
    case MethodInsert => InsertAgrees(c, env, cs);
    case MethodUpdate => UpdateAgrees(c, env, cs);
    case MethodDelete => DeleteAgrees(c, env, cs);
    case MethodSelect =>
      AgreeSelf(Nothing);
      SelectIsStable(c, env, cs);
  }

  lemma {:induction false} SelectIsStable(c: Compiler, env: Env, cs: seq<Clause>)
    ensures StableWrite(c, env, MethodSelect, cs)
  {
  }

  /** The main result.  Replacing every reference by its nearest definition, and
      dropping all definitions, leaves the whole statement and its arguments unchanged
      if and only if everything that reaches the output is stable. */
  lemma {:induction false} SubstitutionIsExact(c: Compiler, q: Query)
    requires CteFormed(q.clauses)
    ensures Emitted(c, Substituted(map[], q)) == Emitted(c, q) <==> StableStatement(c, q)
  {
    hide Substituted, TransformAggregate, EmitWrite, WithCtes, EmitQuery, StableClauses, CteFormed, SubstClauses, StableQuery, StableWrite,
      Agree, C.Find;
    SubstKeeps(q);
    if q.verb == MethodSelect {
      TransformOfSubst(c, q);
      TransformFormed(c, q);
      var t := TransformAggregate(q, c.Engine());
      SelectStatementAgrees(c, t);
      FinishAgrees(StableStatement(c, q), WithCtes(c, EmitQuery(c, map[], Substituted(map[], t)), Substituted(map[], t).clauses),
                   WithCtes(c, EmitQuery(c, map[], t), t.clauses), q.comment);
    } else {
      WriteAgrees(c, q.variables, q.verb, q.clauses);
      var a, b := EmitWrite(c, map[], q.verb, SubstClauses(q.variables, q.clauses)), EmitWrite(c, q.variables, q.verb, q.clauses);
      WithAgrees(c, StableWrite(c, q.variables, q.verb, q.clauses), a, b, q.variables, q.clauses);
      FinishAgrees(StableStatement(c, q), WithCtes(c, a, SubstClauses(q.variables, q.clauses)), WithCtes(c, b, q.clauses), q.comment);
    }
  }

  lemma {:induction false} SelectStatementAgrees(c: Compiler, t: Query)
    requires CteFormed(t.clauses)
    ensures var s := Substituted(map[], t);
      Agree(StableQuery(c, map[], t) && StableClauses(c, map[], C.Find(c.Engine(), {}, t.clauses).ctes),
            WithCtes(c, EmitQuery(c, map[], s), s.clauses), WithCtes(c, EmitQuery(c, map[], t), t.clauses))
  {
    hide Substituted, WithCtes, EmitQuery, StableClauses, CteFormed, SubstClauses, StableQuery, Agree, C.Find;
    SubstKeeps(t);
    QueryAgrees(c, map[], t);
    WithAgrees(c, StableQuery(c, map[], t), EmitQuery(c, map[], Substituted(map[], t)), EmitQuery(c, map[], t), t.variables, t.clauses);
  }

  lemma {:induction false} FinishAgrees(same: bool, a: Out, b: Out, comment: string)
    requires Agree(same, a, b)
    ensures Commented(a, comment) == Commented(b, comment) <==> same
  {
    CommentedAgrees(same, a, b, comment);
    AgreeExact(same, Commented(a, comment), Commented(b, comment));
  }

  /** Oracle's time comparison of a variable defined as "10:30" prints another
      format than the comparison with "10:30" itself. */
  lemma {:induction false} OracleMustLookAlike(legacy: bool, column: string)
    ensures var c := Compiler(Oracle(legacy), {}); var env: Env := map["t" := Str("10:30")];
      DateOut(c, map[], "time", column, "=", SubstValue(env, Variable("t"))) != DateOut(c, env, "time", column, "=", Variable("t"))
  {
    var c := Compiler(Oracle(legacy), {});
    var env: Env := map["t" := Str("10:30")];
    assert S.CountChar("10:30", ':') == 1;
    assert ValueString(Variable("t")) == "{t}" && S.CountChar("{t}", ':') == 0;
    var short, long := ", 'HH24:MI'), 'HH24:MI:SS')", ", 'HH24:MI:SS'), 'HH24:MI:SS')";
    assert |short| != |long|;
    var a, b := DateOut(c, map[], "time", column, "=", Str("10:30")), DateOut(c, env, "time", column, "=", Variable("t"));
    assert DateFrame(c, "time", Str("10:30")).valueAfter == short;
    assert DateFrame(c, "time", Variable("t")).valueAfter == long;
    assert a.sql[6] == Sym(short) && b.sql[6] == Sym(long);
  }
}
