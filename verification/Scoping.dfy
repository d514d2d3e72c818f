/** Engine scopes do not interfere: compiling a query for a dialect gives the same
    text, arguments and CTE list as compiling its restriction to the clauses that
    the dialect sees, at every depth, and acceptance carries over. */
module Scoping {
  import opened Ast
  import opened Dialects
  import opened Emit
  import opened Statements
  import opened Validation
  import C = Ctes

  // ----- the restriction ------------------------------------------------------------------

  function Restricted(e: string, q: Query): (r: Query)
    ensures QuerySize(r) <= QuerySize(q)
    decreases QuerySize(q), 0
  {
    q.(clauses := RestrictedClauses(e, q.clauses))
  }

  function RestrictedClauses(e: string, cs: seq<Clause>): (r: seq<Clause>)
    ensures ClausesSize(r) <= ClausesSize(cs)
    decreases ClausesSize(cs), 2
  {
    if cs == [] then []
    else if Visible(cs[0], e) then [RestrictedClause(e, cs[0])] + RestrictedClauses(e, cs[1..])
    else RestrictedClauses(e, cs[1..])
  }

  function RestrictedClause(e: string, cl: Clause): (r: Clause)
    ensures ClauseSize(r) <= ClauseSize(cl)
    ensures Tag(r) == Tag(cl) && r.engine == cl.engine
    decreases ClauseSize(cl), 1
  {
    Clause(cl.engine, match cl.body
    case FromQuery(q) => FromQuery(Restricted(e, q))
    case QueryColumn(q) => QueryColumn(Restricted(e, q))
    case AggregateColumn(aggregate, column, Some(g)) => AggregateColumn(aggregate, column, Some(Restricted(e, g)))
    case Join(kind, cs) => Join(kind, RestrictedClauses(e, cs))
    case CombineQuery(operation, all, q) => CombineQuery(operation, all, Restricted(e, q))
    case QueryCte(alias, q) => QueryCte(alias, Restricted(e, q))
    case InsertQuery(columns, q) => InsertQuery(columns, Restricted(e, q))
    case Condition(section, or, not, shape) => Condition(section, or, not, RestrictedShape(e, shape))
    case body => body)
  }

  function RestrictedShape(e: string, shape: Shape): (r: Shape)
    ensures ShapeSize(r) <= ShapeSize(shape)
    decreases ShapeSize(shape), 0
  {
    match shape
    case InQuery(column, q) => InQuery(column, Restricted(e, q))
    case SubQuery(q, op, v) => SubQuery(Restricted(e, q), op, v)
    case Exists(q) => Exists(Restricted(e, q))
    case Nested(g) => Nested(Restricted(e, g))
    case _ => shape
  }

  // ----- selecting from a restriction --------------------------------------------------------

  lemma {:induction false} RestrictedConcat(e: string, a: seq<Clause>, b: seq<Clause>)
    ensures RestrictedClauses(e, a + b) == RestrictedClauses(e, a) + RestrictedClauses(e, b)
  {
    if a == [] {
      assert a + b == b;
    } else {
      assert (a + b)[1..] == a[1..] + b;
      RestrictedConcat(e, a[1..], b);
    }
  }

  lemma {:induction false} ComponentsOfRestricted(e: string, cs: seq<Clause>, of: Component)
    ensures Components(RestrictedClauses(e, cs), of, e) == RestrictedClauses(e, Components(cs, of, e))
  {
    if cs != [] {
      ComponentsOfRestricted(e, cs[1..], of);
      if Visible(cs[0], e) {
        var head := [RestrictedClause(e, cs[0])];
        var tail := RestrictedClauses(e, cs[1..]);
        assert (head + tail)[0] == head[0] && (head + tail)[1..] == tail;
        if Tag(cs[0]) == of {
          var kept := Components(cs[1..], of, e);
          assert ([cs[0]] + kept)[0] == cs[0] && ([cs[0]] + kept)[1..] == kept;
        }
      }
    }
  }

  lemma {:induction false} FirstScopedOfRestricted(e: string, cs: seq<Clause>, engine: string)
    requires forall cl <- cs :: Visible(cl, e)
    ensures FirstScoped(RestrictedClauses(e, cs), engine) ==
      match FirstScoped(cs, engine) case Some(cl) => Some(RestrictedClause(e, cl)) case None => None
  {
    if cs != [] {
      FirstScopedOfRestricted(e, cs[1..], engine);
      var head := [RestrictedClause(e, cs[0])];
      var tail := RestrictedClauses(e, cs[1..]);
      assert (head + tail)[0] == head[0] && (head + tail)[1..] == tail;
    }
  }

  lemma {:induction false} OneOfRestricted(e: string, cs: seq<Clause>, of: Component)
    ensures One(RestrictedClauses(e, cs), of, e) ==
      match One(cs, of, e) case Some(cl) => Some(RestrictedClause(e, cl)) case None => None
  {
    ComponentsOfRestricted(e, cs, of);
    FirstScopedOfRestricted(e, Components(cs, of, e), e);
    FirstScopedOfRestricted(e, Components(cs, of, e), "");
  }

  lemma {:induction false} WithoutOfRestricted(e: string, cs: seq<Clause>, of: set<Component>)
    ensures Without(RestrictedClauses(e, cs), of) == RestrictedClauses(e, Without(cs, of))
  {
    if cs != [] {
      WithoutOfRestricted(e, cs[1..], of);
      if Visible(cs[0], e) {
        var head := [RestrictedClause(e, cs[0])];
        var tail := RestrictedClauses(e, cs[1..]);
        assert (head + tail)[0] == head[0] && (head + tail)[1..] == tail;
      }
      if Tag(cs[0]) !in of {
        var kept := Without(cs[1..], of);
        assert ([cs[0]] + kept)[0] == cs[0] && ([cs[0]] + kept)[1..] == kept;
      }
    }
  }

  lemma {:induction false} RestrictedTwice(e: string, cs: seq<Clause>)
    ensures RestrictedClauses(e, RestrictedClauses(e, cs)) == RestrictedClauses(e, cs)
    decreases ClausesSize(cs), 2
  {
    if cs != [] {
      RestrictedTwice(e, cs[1..]);
      if Visible(cs[0], e) {
        RestrictedClauseTwice(e, cs[0]);
        var head := [RestrictedClause(e, cs[0])];
        var tail := RestrictedClauses(e, cs[1..]);
        assert (head + tail)[0] == head[0] && (head + tail)[1..] == tail;
      }
    }
  }

  lemma {:induction false} RestrictedClauseTwice(e: string, cl: Clause)
    ensures RestrictedClause(e, RestrictedClause(e, cl)) == RestrictedClause(e, cl)
    decreases ClauseSize(cl), 1
  {
    match cl.body
    case FromQuery(q) => RestrictedQueryTwice(e, q);
    case QueryColumn(q) => RestrictedQueryTwice(e, q);
    case AggregateColumn(_, _, filter) => if filter.Some? { RestrictedQueryTwice(e, filter.value); }
    case Join(_, cs) => RestrictedTwice(e, cs);
    case CombineQuery(_, _, q) => RestrictedQueryTwice(e, q);
    case QueryCte(_, q) => RestrictedQueryTwice(e, q);
    case InsertQuery(_, q) => RestrictedQueryTwice(e, q);
    case Condition(_, _, _, shape) => RestrictedShapeTwice(e, shape);
    case _ =>
  }

  lemma {:induction false} RestrictedShapeTwice(e: string, shape: Shape)
    ensures RestrictedShape(e, RestrictedShape(e, shape)) == RestrictedShape(e, shape)
    decreases ShapeSize(shape), 0
  {
    match shape
    case InQuery(_, q) => RestrictedQueryTwice(e, q);
    case SubQuery(q, _, _) => RestrictedQueryTwice(e, q);
    case Exists(q) => RestrictedQueryTwice(e, q);
    case Nested(g) => RestrictedQueryTwice(e, g);
    case _ =>
  }

  lemma {:induction false} RestrictedQueryTwice(e: string, q: Query)
    ensures Restricted(e, Restricted(e, q)) == Restricted(e, q)
    decreases QuerySize(q), 0
  {
    RestrictedTwice(e, q.clauses);
  }

  lemma {:induction false} ChosenOfRestricted(c: Compiler, cs: seq<Clause>, of: Component)
    ensures Chosen(c, RestrictedClauses(c.Engine(), cs), of) == RestrictedClauses(c.Engine(), Chosen(c, cs, of))
  {
    var e := c.Engine();
    OneOfRestricted(e, cs, From);
    OneOfRestricted(e, cs, Aggregate);
    ComponentsOfRestricted(e, cs, of);
    if of == From && One(cs, From, e).Some? {
      var cl := One(cs, From, e).value;
      assert [cl][1..] == [];
      assert RestrictedClauses(e, [cl]) == [RestrictedClause(e, cl)];
    }
  }

  // ----- fragments ---------------------------------------------------------------------------

  /** A clause that embeds nothing is its own restriction. */
  lemma {:induction false} LeafOfRestricted(e: string, cl: Clause)
    requires SubQueryOf(cl).None? && GroupOf(cl).None? && JoinOf(cl).None?
    ensures RestrictedClause(e, cl) == cl
  {
  }

  /** Restricting keeps the kind of a clause. */
  lemma {:induction false} KindOfRestricted(e: string, cl: Clause)
    ensures var r := RestrictedClause(e, cl);
      && (cl.body.LimitTo? || cl.body.OffsetBy? || cl.body.Aggregated? ==> r == cl)
      && (r.body.LimitTo? || r.body.OffsetBy? || r.body.Aggregated? ==> r == cl)
  {
  }

  lemma {:induction false} LimitsOfRestricted(c: Compiler, cs: seq<Clause>)
    ensures LimitOf(c, RestrictedClauses(c.Engine(), cs)) == LimitOf(c, cs)
    ensures OffsetOf(c, RestrictedClauses(c.Engine(), cs)) == OffsetOf(c, cs)
  {
    OneOfRestricted(c.Engine(), cs, Limit);
    OneOfRestricted(c.Engine(), cs, Offset);
    hide One, RestrictedClause, RestrictedClauses;
    var l, o := One(cs, Limit, c.Engine()), One(cs, Offset, c.Engine());
    if l.Some? { KindOfRestricted(c.Engine(), l.value); }
    if o.Some? { KindOfRestricted(c.Engine(), o.value); }
  }

  lemma {:induction false} OrderOfRestricted(c: Compiler, cl: Clause)
    ensures OrderOut(c, RestrictedClause(c.Engine(), cl)) == OrderOut(c, cl)
  {
    hide Restricted, RestrictedClauses, RestrictedShape, RawOut;
  }

  lemma {:induction false} OrderPartsOfRestricted(c: Compiler, cs: seq<Clause>)
    requires forall cl <- cs :: Tag(cl) == Order && Visible(cl, c.Engine())
    ensures OrderParts(c, RestrictedClauses(c.Engine(), cs)) == OrderParts(c, cs)
    ensures |RestrictedClauses(c.Engine(), cs)| == |cs|
  {
    hide RestrictedClause, OrderOut;
    if cs != [] {
      OrderPartsOfRestricted(c, cs[1..]);
      OrderOfRestricted(c, cs[0]);
      var head := [RestrictedClause(c.Engine(), cs[0])];
      var tail := RestrictedClauses(c.Engine(), cs[1..]);
      assert (head + tail)[0] == head[0] && (head + tail)[1..] == tail;
    }
  }

  lemma {:induction false} ConnectOfRestricted(e: string, cs: seq<Clause>, parts: seq<Out>, started: bool)
    requires |cs| == |parts| && forall cl <- cs :: Visible(cl, e)
    ensures |RestrictedClauses(e, cs)| == |cs|
    ensures Connect(RestrictedClauses(e, cs), parts, started) == Connect(cs, parts, started)
  {
    if cs != [] {
      ConnectOfRestricted(e, cs[1..], parts[1..], started || parts[0].sql != []);
      var head := [RestrictedClause(e, cs[0])];
      var tail := RestrictedClauses(e, cs[1..]);
      assert (head + tail)[0] == head[0] && (head + tail)[1..] == tail;
    }
  }

  lemma {:induction false} HeadOfRestricted(c: Compiler, q: Query, columns: seq<Out>)
    ensures HeadSection(c, Restricted(c.Engine(), q), columns) == HeadSection(c, q, columns)
  {
    LimitsOfRestricted(c, q.clauses);
    OneOfRestricted(c.Engine(), q.clauses, Aggregate);
    hide One, RestrictedClause, RestrictedClauses, LimitOf, OffsetOf;
    var a := One(q.clauses, Aggregate, c.Engine());
    if a.Some? { KindOfRestricted(c.Engine(), a.value); }
  }

  lemma {:induction false} OrdersOfRestricted(c: Compiler, cs: seq<Clause>)
    ensures var orders := Components(cs, Order, c.Engine());
      var orders' := Components(RestrictedClauses(c.Engine(), cs), Order, c.Engine());
      OrderParts(c, orders') == OrderParts(c, orders) && (orders' == [] <==> orders == [])
  {
    ComponentsOfRestricted(c.Engine(), cs, Order);
    OrderPartsOfRestricted(c, Components(cs, Order, c.Engine()));
  }

  lemma {:induction false} AssembleOfRestricted(c: Compiler, q: Query, p: Parts)
    requires PartsFit(c, q.clauses, p)
    ensures PartsFit(c, RestrictedClauses(c.Engine(), q.clauses), p)
    ensures Assemble(c, Restricted(c.Engine(), q), p) == Assemble(c, q, p)
  {
    var e := c.Engine();
    ChosenOfRestricted(c, q.clauses, Where);
    ChosenOfRestricted(c, q.clauses, Having);
    ConnectOfRestricted(e, Chosen(c, q.clauses, Where), p.wheres, false);
    ConnectOfRestricted(e, Chosen(c, q.clauses, Having), p.havings, false);
    HeadOfRestricted(c, q, p.columns);
    OrdersOfRestricted(c, q.clauses);
    LimitsOfRestricted(c, q.clauses);
    hide Chosen, Connect, HeadSection, OrderParts, LimitOf, OffsetOf, Components, LimitSection, Joined, RestrictedClauses;
  }

  // ----- rewritten queries -------------------------------------------------------------------

  lemma {:induction false} RestrictedAppend(e: string, q: Query, bodies: seq<Body>)
    ensures Restricted(e, Append(Restricted(e, q), bodies)) == Restricted(e, Append(q, bodies))
  {
    var added := Stamp(q.engineScope, bodies);
    RestrictedConcat(e, q.clauses, added);
    RestrictedConcat(e, RestrictedClauses(e, q.clauses), added);
    RestrictedTwice(e, q.clauses);
  }

  lemma {:induction false} RestrictedDrop(e: string, q: Query, of: set<Component>)
    ensures Drop(Restricted(e, q), of) == Restricted(e, Drop(q, of))
  {
    WithoutOfRestricted(e, q.clauses, of);
  }

  lemma {:induction false} RowNumberedOfRestricted(c: Compiler, q: Query)
    ensures var e := c.Engine(); Restricted(e, RowNumbered(c, Restricted(e, q))) == Restricted(e, RowNumbered(c, q))
  {
    var e := c.Engine();
    var of := {Order, Limit, Offset};
    OrdersOfRestricted(c, q.clauses);
    WithoutOfRestricted(e, q.clauses, of);
    ComponentsOfRestricted(e, Without(q.clauses, of), Select);
    AllVisible(e, Without(q.clauses, of), Select);
    RestrictedDrop(e, q, of);
    RestrictedAppend(e, Drop(q, of), RowNumberColumns(c, q));
    assert RowNumberColumns(c, Restricted(e, q)) == RowNumberColumns(c, q);
  }

  lemma {:induction false} AllVisible(e: string, cs: seq<Clause>, of: Component)
    ensures RestrictedClauses(e, Components(cs, of, e)) == [] <==> Components(cs, of, e) == []
  {
  }

  lemma {:induction false} ExistsCopyOfRestricted(e: string, q: Query)
    ensures ExistsCopy(Restricted(e, q)) == Restricted(e, ExistsCopy(q))
  {
    var one := Clause("", RawColumn(Select, Raw(Written("1"), [])));
    WithoutOfRestricted(e, q.clauses, {Select});
    RestrictedConcat(e, Without(q.clauses, {Select}), [one]);
    assert [one][1..] == [];
    assert RestrictedClauses(e, [one]) == [one];
  }

  // ----- the descent --------------------------------------------------------------------------

  lemma {:induction false} QueryOfRestricted(c: Compiler, outer: Env, q: Query)
    ensures EmitQuery(c, outer, Restricted(c.Engine(), q)) == EmitQuery(c, outer, q)
    decreases QuerySize(q), 2
  {
    var e := c.Engine();
    var r := Restricted(e, q);
    var env := outer + q.variables;
    LimitsOfRestricted(c, q.clauses);
    hide RestrictedClauses, LimitOf, OffsetOf, RowNumbered, Assemble, EmitParts, RownumWrap, RowNumberWrap;
    if Recompiled(c, q) {
      RowNumberedSize(c, q);
      RowNumberedSize(c, r);
      QueryOfRestricted(c, env, RowNumbered(c, q));
      QueryOfRestricted(c, env, RowNumbered(c, r));
      RowNumberedOfRestricted(c, q);
    } else {
      PartsOfRestricted(c, env, q.clauses);
      AssembleOfRestricted(c, q, EmitParts(c, env, q.clauses));
    }
  }

  lemma {:induction false} PartsOfRestricted(c: Compiler, env: Env, cs: seq<Clause>)
    ensures EmitParts(c, env, RestrictedClauses(c.Engine(), cs)) == EmitParts(c, env, cs)
    decreases ClausesSize(cs) + 1, 2
  {
    SectionOfRestricted(c, env, cs, Select);
    SectionOfRestricted(c, env, cs, From);
    SectionOfRestricted(c, env, cs, Joins);
    SectionOfRestricted(c, env, cs, Where);
    SectionOfRestricted(c, env, cs, Group);
    SectionOfRestricted(c, env, cs, Having);
    SectionOfRestricted(c, env, cs, Combine);
  }

  lemma {:induction false} SectionOfRestricted(c: Compiler, env: Env, cs: seq<Clause>, of: Component)
    ensures EmitClauses(c, env, Chosen(c, RestrictedClauses(c.Engine(), cs), of)) == EmitClauses(c, env, Chosen(c, cs, of))
    decreases ClausesSize(cs), 3
  {
    ChosenOfRestricted(c, cs, of);
    ClausesOfRestricted(c, env, Chosen(c, cs, of));
  }

  lemma {:induction false} ClausesOfRestricted(c: Compiler, env: Env, cs: seq<Clause>)
    requires forall cl <- cs :: Visible(cl, c.Engine())
    ensures EmitClauses(c, env, RestrictedClauses(c.Engine(), cs)) == EmitClauses(c, env, cs)
    decreases ClausesSize(cs), 2
  {
    if cs != [] {
      ClauseOfRestricted(c, env, cs[0]);
      ClausesOfRestricted(c, env, cs[1..]);
      var head := [RestrictedClause(c.Engine(), cs[0])];
      var tail := RestrictedClauses(c.Engine(), cs[1..]);
      assert (head + tail)[0] == head[0] && (head + tail)[1..] == tail;
    }
  }

  lemma {:induction false} GroupOfRestricted(c: Compiler, env: Env, g: Query)
    ensures EmitGroup(c, env, Restricted(c.Engine(), g)) == EmitGroup(c, env, g)
    decreases QuerySize(g), 2
  {
    var cs := Components(g.clauses, Where, c.Engine());
    ComponentsOfRestricted(c.Engine(), g.clauses, Where);
    ClausesOfRestricted(c, env, cs);
    ConnectOfRestricted(c.Engine(), cs, EmitClauses(c, env, cs), false);
  }

  lemma {:induction false} SelectOfRestricted(c: Compiler, outer: Env, q: Query)
    ensures EmitSelect(c, outer, Restricted(c.Engine(), q)) == EmitSelect(c, outer, q)
    decreases QuerySize(q), 3
  {
    QueryOfRestricted(c, outer, q);
  }

  lemma {:induction false} ClauseOfRestricted(c: Compiler, env: Env, cl: Clause)
    ensures EmitClause(c, env, RestrictedClause(c.Engine(), cl)) == EmitClause(c, env, cl)
    decreases ClauseSize(cl), 1
  {
    hide EmitClause, RestrictedClause, Chosen;
    if JoinOf(cl).Some? {
      SectionOfRestricted(c, env, JoinOf(cl).value, From);
      SectionOfRestricted(c, env, JoinOf(cl).value, Where);
      JoinOfRestricted(c, env, cl);
    } else if cl.body.Condition? {
      ShapeOfRestricted(c, env, cl.body.not, cl.body.shape);
      ConditionClauseOfRestricted(c, env, cl);
    } else if SubQueryOf(cl).Some? {
      SelectOfRestricted(c, env, SubQueryOf(cl).value);
      SelectOfRestricted(c, map[], SubQueryOf(cl).value);
      SubClauseOfRestricted(c, env, cl);
    } else if GroupOf(cl).Some? {
      GroupOfRestricted(c, env, GroupOf(cl).value);
      FilterOfRestricted(c, env, cl);
    } else {
      LeafOfRestricted(c.Engine(), cl);
    }
  }

  lemma {:induction false} ConditionClauseOfRestricted(c: Compiler, env: Env, cl: Clause)
    requires cl.body.Condition?
    requires var r := RestrictedShape(c.Engine(), cl.body.shape);
      ShapeOut(c, env, cl.body.not, r, EmitShape(c, env, r))
      == ShapeOut(c, env, cl.body.not, cl.body.shape, EmitShape(c, env, cl.body.shape))
    ensures EmitClause(c, env, RestrictedClause(c.Engine(), cl)) == EmitClause(c, env, cl)
  {
    hide ShapeOut, EmitShape, RestrictedShape;
  }

  lemma {:induction false} SubClauseOfRestricted(c: Compiler, env: Env, cl: Clause)
    requires SubQueryOf(cl).Some? && !cl.body.Condition?
    requires var q := SubQueryOf(cl).value;
      && EmitSelect(c, env, Restricted(c.Engine(), q)) == EmitSelect(c, env, q)
      && EmitSelect(c, map[], Restricted(c.Engine(), q)) == EmitSelect(c, map[], q)
    ensures EmitClause(c, env, RestrictedClause(c.Engine(), cl)) == EmitClause(c, env, cl)
  {
    hide Embedded, CombineOut, CteOut, EmitSelect, Restricted;
    AliasOfRestricted(c.Engine(), SubQueryOf(cl).value);
  }

  lemma {:induction false} FilterOfRestricted(c: Compiler, env: Env, cl: Clause)
    requires GroupOf(cl).Some? && !cl.body.Condition?
    requires var g := GroupOf(cl).value; EmitGroup(c, env, Restricted(c.Engine(), g)) == EmitGroup(c, env, g)
    ensures EmitClause(c, env, RestrictedClause(c.Engine(), cl)) == EmitClause(c, env, cl)
  {
    hide AggregateColumnOut, EmitGroup, Restricted;
  }

  lemma {:induction false} AliasOfRestricted(e: string, q: Query)
    ensures Restricted(e, q).alias == q.alias
  {
  }

  lemma {:induction false} JoinOfRestricted(c: Compiler, env: Env, cl: Clause)
    requires JoinOf(cl).Some?
    requires var cs := JoinOf(cl).value; var r := RestrictedClauses(c.Engine(), cs);
      && EmitClauses(c, env, Chosen(c, r, From)) == EmitClauses(c, env, Chosen(c, cs, From))
      && EmitClauses(c, env, Chosen(c, r, Where)) == EmitClauses(c, env, Chosen(c, cs, Where))
    ensures EmitClause(c, env, RestrictedClause(c.Engine(), cl)) == EmitClause(c, env, cl)
  {
    var cs := JoinOf(cl).value;
    ChosenOfRestricted(c, cs, Where);
    ConnectOfRestricted(c.Engine(), Chosen(c, cs, Where), EmitClauses(c, env, Chosen(c, cs, Where)), false);
    hide Connect, Chosen, EmitClauses, RestrictedClauses;
  }

  lemma {:induction false} ShapeOfRestricted(c: Compiler, env: Env, not: bool, shape: Shape)
    ensures var r := RestrictedShape(c.Engine(), shape);
      ShapeOut(c, env, not, r, EmitShape(c, env, r)) == ShapeOut(c, env, not, shape, EmitShape(c, env, shape))
    decreases ShapeSize(shape), 0
  {
    hide Parameter, Parameterize, RawOut, LikeOut, DateOut;
    match shape
    case InQuery(_, q) => SelectOfRestricted(c, env, q);
    case SubQuery(q, _, _) => SelectOfRestricted(c, env, q);
    case Exists(q) =>
      ExistsCopyOfRestricted(c.Engine(), q);
      SelectOfRestricted(c, env, ExistsCopy(q));
    case Nested(g) => GroupOfRestricted(c, env, g);
    case _ =>
  }

  // ----- CTEs ------------------------------------------------------------------------------------

  lemma {:induction false} CollectedConcat(e: string, a: seq<Clause>, b: seq<Clause>)
    ensures Collected(e, a + b) == Collected(e, a) + Collected(e, b)
  {
  }

  /** The collected CTEs of a restriction are the restrictions of the collected. */
  function Collected(e: string, ctes: seq<Clause>): (r: seq<Clause>)
    ensures |r| == |ctes|
    ensures forall i :: 0 <= i < |r| ==> r[i] == RestrictedClause(e, ctes[i])
  {
    seq(|ctes|, i requires 0 <= i < |ctes| => RestrictedClause(e, ctes[i]))
  }

  lemma {:induction false} CollectedCons(e: string, cs: seq<Clause>)
    requires cs != []
    ensures Collected(e, cs) == [RestrictedClause(e, cs[0])] + Collected(e, cs[1..])
  {
    hide RestrictedClause;
  }

  lemma {:induction false} CollectedIsRestricted(e: string, cs: seq<Clause>)
    requires forall cl <- cs :: Visible(cl, e)
    ensures RestrictedClauses(e, cs) == Collected(e, cs)
  {
    hide RestrictedClause;
    if cs != [] {
      CollectedCons(e, cs);
      hide Collected;
      assert Visible(cs[0], e) && forall cl <- cs[1..] :: cl in cs;
      CollectedIsRestricted(e, cs[1..]);
    }
  }

  lemma {:induction false} EmbeddedOfRestricted(e: string, cl: Clause)
    ensures var r := RestrictedClause(e, cl);
      && SubQueryOf(r) == (match SubQueryOf(cl) case Some(q) => Some(Restricted(e, q)) case None => None)
      && GroupOf(r) == (match GroupOf(cl) case Some(q) => Some(Restricted(e, q)) case None => None)
      && JoinOf(r) == (match JoinOf(cl) case Some(cs) => Some(RestrictedClauses(e, cs)) case None => None)
      && r.body.CombineQuery? == cl.body.CombineQuery? && r.body.QueryCte? == cl.body.QueryCte?
  {
    hide Restricted, RestrictedClauses;
  }

  lemma {:induction false} AliasKept(e: string, cl: Clause)
    ensures C.Alias(RestrictedClause(e, cl)) == C.Alias(cl)
    ensures C.CteBody(RestrictedClause(e, cl)) ==
      match C.CteBody(cl) case Some(cs) => Some(RestrictedClauses(e, cs)) case None => None
    ensures C.Scope(RestrictedClause(e, cl)) ==
      match C.Scope(cl) case Some(cs) => Some(RestrictedClauses(e, cs)) case None => None
  {
    EmbeddedOfRestricted(e, cl);
  }

  function FoundOfRestricted(e: string, f: C.Found): C.Found { C.Found(Collected(e, f.ctes), f.seen) }

  lemma {:induction false} FindOfRestricted(e: string, seen: set<string>, cs: seq<Clause>)
    ensures C.Find(e, seen, RestrictedClauses(e, cs)) == FoundOfRestricted(e, C.Find(e, seen, cs))
    decreases ClausesSize(cs), 3
  {
    var ctes := Components(cs, Cte, e);
    ComponentsOfRestricted(e, cs, Cte);
    LevelOfRestricted(e, seen, ctes, []);
    assert Collected(e, []) == [];
    var level := C.FindLevel(e, seen, ctes, []);
    RestOfRestricted(e, level.seen, cs);
    CollectedConcat(e, level.ctes, C.FindRest(e, level.seen, cs).ctes);
  }

  lemma {:induction false} LevelOfRestricted(e: string, seen: set<string>, ctes: seq<Clause>, result: seq<Clause>)
    requires forall cl <- ctes :: Visible(cl, e)
    ensures C.FindLevel(e, seen, RestrictedClauses(e, ctes), Collected(e, result))
         == FoundOfRestricted(e, C.FindLevel(e, seen, ctes, result))
    decreases ClausesSize(ctes), 2
  {
    if ctes != [] {
      var cl := ctes[0];
      var head := [RestrictedClause(e, cl)];
      var tail := RestrictedClauses(e, ctes[1..]);
      assert (head + tail)[0] == head[0] && (head + tail)[1..] == tail;
      AliasKept(e, cl);
      if C.Alias(cl) in seen {
        LevelOfRestricted(e, seen, ctes[1..], result);
      } else {
        var seen' := seen + {C.Alias(cl)};
        var body := C.FindBody(e, seen', cl);
        if C.CteBody(cl).Some? { FindOfRestricted(e, seen', C.CteBody(cl).value); }
        assert C.FindBody(e, seen', head[0]) == FoundOfRestricted(e, body);
        var result' := body.ctes + (result + [cl]);
        CollectedConcat(e, result, [cl]);
        CollectedConcat(e, body.ctes, result + [cl]);
        assert Collected(e, [cl]) == head;
        LevelOfRestricted(e, body.seen, ctes[1..], result');
      }
    }
  }

  lemma {:induction false} RestOfRestricted(e: string, seen: set<string>, cs: seq<Clause>)
    ensures C.FindRest(e, seen, RestrictedClauses(e, cs)) == FoundOfRestricted(e, C.FindRest(e, seen, cs))
    decreases ClausesSize(cs), 2
  {
    if cs != [] {
      var cl := cs[0];
      var here := if C.Searched(cl, e) then C.Find(e, seen, C.Scope(cl).value) else C.Found([], seen);
      AliasKept(e, cl);
      if C.Searched(cl, e) { FindOfRestricted(e, seen, C.Scope(cl).value); }
      RestOfRestricted(e, here.seen, cs[1..]);
      CollectedConcat(e, here.ctes, C.FindRest(e, here.seen, cs[1..]).ctes);
      if Visible(cl, e) {
        var head := [RestrictedClause(e, cl)];
        var tail := RestrictedClauses(e, cs[1..]);
        assert (head + tail)[0] == head[0] && (head + tail)[1..] == tail;
      } else {
        assert [] + C.FindRest(e, seen, cs[1..]).ctes == C.FindRest(e, seen, cs[1..]).ctes;
      }
    }
  }

  lemma {:induction false} WithOfRestricted(c: Compiler, out: Out, cs: seq<Clause>)
    ensures WithCtes(c, out, RestrictedClauses(c.Engine(), cs)) == WithCtes(c, out, cs)
  {
    var e := c.Engine();
    var ctes := C.Find(e, {}, cs).ctes;
    FindOfRestricted(e, {}, cs);
    C.FindWithin(e, {}, cs);
    C.AllTagged(e, cs);
    CollectedIsRestricted(e, ctes);
    ClausesOfRestricted(c, map[], ctes);
  }

  // ----- the aggregate rewrite ----------------------------------------------------------------------

  lemma {:induction false} InnerOfRestricted(e: string, q: Query, kind: string, columns: seq<string>)
    ensures Restricted(e, InnerQuery(Restricted(e, q), kind, columns)) == Restricted(e, InnerQuery(q, kind, columns))
  {
    var bare := Drop(q, {Limit, Order, Group});
    RestrictedDrop(e, q, {Limit, Order, Group});
    if q.distinct {
      RestrictedDrop(e, bare, {Aggregate, Select});
      RestrictedAppend(e, Drop(bare, {Aggregate, Select}), ColumnBodies(columns));
    } else {
      RestrictedAppend(e, bare, GuardBodies(columns));
    }
  }

  /** Restricting after rewriting sees the same query whether or not it was
      restricted before. */
  lemma {:induction false} TransformOfRestricted(e: string, q: Query)
    ensures Restricted(e, TransformAggregate(Restricted(e, q), e)) == Restricted(e, TransformAggregate(q, e))
  {
    OneOfRestricted(e, q.clauses, Aggregate);
    var cl := One(q.clauses, Aggregate, e);
    if cl.Some? { KindOfRestricted(e, cl.value); }
    hide One, RestrictedClause, InnerQuery, RestrictedClauses, Without;
    if cl.Some? && cl.value.body.Aggregated? {
      var Aggregated(kind, columns) := cl.value.body;
      DropOfRestricted(e, q);
      InnerOfRestricted(e, q, kind, columns);
      PairOfRestricted(e, Clause("", Aggregated(kind, ["*"])), InnerQuery(q, kind, columns),
                       InnerQuery(Restricted(e, q), kind, columns));
    } else {
      RestrictedTwice(e, q.clauses);
    }
  }

  lemma {:induction false} DropOfRestricted(e: string, q: Query)
    ensures Restricted(e, Drop(Restricted(e, q), {Limit, Order, Group})) == Restricted(e, Drop(q, {Limit, Order, Group}))
  {
    hide RestrictedClauses, Without;
    RestrictedDrop(e, q, {Limit, Order, Group});
    RestrictedTwice(e, Without(q.clauses, {Limit, Order, Group}));
  }

  lemma {:induction false} PairOfRestricted(e: string, a: Clause, inner: Query, inner': Query)
    requires a.engine == "" && Restricted(e, inner') == Restricted(e, inner)
    ensures RestrictedClauses(e, [a, Clause("", FromQuery(inner'))]) == RestrictedClauses(e, [a, Clause("", FromQuery(inner))])
  {
    assert [a, Clause("", FromQuery(inner))][1..] == [Clause("", FromQuery(inner))];
    assert [a, Clause("", FromQuery(inner'))][1..] == [Clause("", FromQuery(inner'))];
    assert [Clause("", FromQuery(inner))][1..] == [] && [Clause("", FromQuery(inner'))][1..] == [];
    assert RestrictedClause(e, Clause("", FromQuery(inner))) == RestrictedClause(e, Clause("", FromQuery(inner')));
  }

  // ----- write verbs -----------------------------------------------------------------------------------

  lemma {:induction false} WriteKindOfRestricted(e: string, cl: Clause)
    ensures var r := RestrictedClause(e, cl);
      && ((cl.body.FromTable? || cl.body.FromRaw? || cl.body.OnConflict? || cl.body.UpdateSet? || cl.body.Increment?
           || cl.body.InsertRow?) ==> r == cl)
      && (r.body.FromTable? <==> cl.body.FromTable?) && (r.body.FromRaw? <==> cl.body.FromRaw?)
      && (r.body.OnConflict? <==> cl.body.OnConflict?) && (r.body.UpdateSet? <==> cl.body.UpdateSet?)
      && (r.body.Increment? <==> cl.body.Increment?) && (r.body.InsertRow? <==> cl.body.InsertRow?)
      && (r.body.InsertQuery? <==> cl.body.InsertQuery?)
      && (cl.body.InsertQuery? ==>
            r.body.columns == cl.body.columns && r.body.query == Restricted(e, cl.body.query))
  {
  }

  lemma {:induction false} TargetOfRestricted(c: Compiler, cs: seq<Clause>)
    ensures var r := RestrictedClauses(c.Engine(), cs);
      && WriteTable(c, r) == WriteTable(c, cs) && TargetAlias(c, r) == TargetAlias(c, cs)
      && ConflictTail(c, r) == ConflictTail(c, cs)
      && forall multi :: InsertStart(c, r, multi) == InsertStart(c, cs, multi)
  {
    OneOfRestricted(c.Engine(), cs, From);
    OneOfRestricted(c.Engine(), cs, Conflict);
    hide One, RestrictedClauses, RestrictedClause, RawOut;
    var f, k := One(cs, From, c.Engine()), One(cs, Conflict, c.Engine());
    if f.Some? { WriteKindOfRestricted(c.Engine(), f.value); }
    if k.Some? { WriteKindOfRestricted(c.Engine(), k.value); }
  }

  lemma {:induction false} WhereOfRestricted(c: Compiler, env: Env, cs: seq<Clause>)
    ensures WhereSection(c, env, RestrictedClauses(c.Engine(), cs)) == WhereSection(c, env, cs)
  {
    ChosenOfRestricted(c, cs, Where);
    SectionOfRestricted(c, env, cs, Where);
    ConnectOfRestricted(c.Engine(), Chosen(c, cs, Where), EmitClauses(c, env, Chosen(c, cs, Where)), false);
  }

  lemma {:induction false} RemainingOfRestricted(c: Compiler, env: Env, table: seq<Token>, inserts: seq<Clause>)
    requires forall cl <- inserts :: Visible(cl, c.Engine())
    ensures RemainingRows(c, env, table, RestrictedClauses(c.Engine(), inserts)) == RemainingRows(c, env, table, inserts)
  {
    if inserts != [] {
      RemainingOfRestricted(c, env, table, inserts[1..]);
      WriteKindOfRestricted(c.Engine(), inserts[0]);
      var head := [RestrictedClause(c.Engine(), inserts[0])];
      var tail := RestrictedClauses(c.Engine(), inserts[1..]);
      assert (head + tail)[0] == head[0] && (head + tail)[1..] == tail;
      hide RowValues, RestrictedClause, InsertColumns;
    }
  }

  lemma {:induction false} InsertOfRestricted(c: Compiler, env: Env, cs: seq<Clause>)
    ensures EmitInsert(c, env, RestrictedClauses(c.Engine(), cs)) == EmitInsert(c, env, cs)
  {
    var e := c.Engine();
    var inserts := Components(cs, Insert, e);
    TargetOfRestricted(c, cs);
    ComponentsOfRestricted(e, cs, Insert);
    CollectedIsRestricted(e, inserts);
    hide WriteTable, ConflictTail, InsertStart, RestrictedClause, RowValues, RemainingRows, InsertColumns;
    if inserts != [] {
      var first := inserts[0];
      WriteKindOfRestricted(e, first);
      if first.body.InsertQuery? { SelectOfRestricted(c, env, first.body.query); }
      RestOfInserts(c, env, WriteTable(c, cs).sql, inserts);
      InsertSame(c, env, RestrictedClauses(e, cs), env, cs);
    }
  }

  lemma {:induction false} RestOfInserts(c: Compiler, env: Env, table: seq<Token>, inserts: seq<Clause>)
    requires inserts != [] && forall cl <- inserts :: Visible(cl, c.Engine())
    ensures RemainingRows(c, env, table, Collected(c.Engine(), inserts)[1..]) == RemainingRows(c, env, table, inserts[1..])
  {
    assert forall cl <- inserts[1..] :: cl in inserts;
    RemainingOfRestricted(c, env, table, inserts[1..]);
    CollectedIsRestricted(c.Engine(), inserts[1..]);
    assert Collected(c.Engine(), inserts)[1..] == Collected(c.Engine(), inserts[1..]);
  }

  lemma {:induction false} UpdateOfRestricted(c: Compiler, env: Env, cs: seq<Clause>)
    ensures EmitUpdate(c, env, RestrictedClauses(c.Engine(), cs)) == EmitUpdate(c, env, cs)
  {
    TargetOfRestricted(c, cs);
    WhereOfRestricted(c, env, cs);
    OneOfRestricted(c.Engine(), cs, Update);
    hide WriteTable, WhereSection, One, RestrictedClause, SetSection;
    var u := One(cs, Update, c.Engine());
    if u.Some? { WriteKindOfRestricted(c.Engine(), u.value); }
  }

  lemma {:induction false} DeleteOfRestricted(c: Compiler, env: Env, cs: seq<Clause>)
    ensures EmitDelete(c, env, RestrictedClauses(c.Engine(), cs)) == EmitDelete(c, env, cs)
  {
    TargetOfRestricted(c, cs);
    WhereOfRestricted(c, env, cs);
    SectionOfRestricted(c, env, cs, Joins);
    hide WriteTable, WhereSection, TargetAlias;
  }

  lemma {:induction false} WriteOfRestricted(c: Compiler, env: Env, verb: Method, cs: seq<Clause>)
    ensures EmitWrite(c, env, verb, RestrictedClauses(c.Engine(), cs)) == EmitWrite(c, env, verb, cs)
  {
    match verb
    case MethodInsert => InsertOfRestricted(c, env, cs);
    case MethodUpdate => UpdateOfRestricted(c, env, cs);
    case MethodDelete => DeleteOfRestricted(c, env, cs);
    case MethodSelect =>
  }

  // ----- the main results ---------------------------------------------------------------------------------

  /** Compiling for a dialect gives the same statement as compiling the restriction
      to what the dialect sees. */
  lemma {:induction false} Noninterference(c: Compiler, q: Query)
    ensures Emitted(c, Restricted(c.Engine(), q)) == Emitted(c, q)
  {
    var e := c.Engine();
    var r := Restricted(e, q);
    hide Restricted, TransformAggregate, EmitWrite, WithCtes, EmitQuery;
    RestrictedKeeps(e, q);
    if q.verb == MethodSelect {
      var t, t' := TransformAggregate(q, e), TransformAggregate(r, e);
      TransformOfRestricted(e, q);
      QueryOfRestricted(c, map[], t);
      QueryOfRestricted(c, map[], t');
      WithOfRestricted(c, EmitQuery(c, map[], t), t.clauses);
      WithOfRestricted(c, EmitQuery(c, map[], t), t'.clauses);
      RestrictedKeeps(e, t);
      RestrictedKeeps(e, t');
    } else {
      WriteOfRestricted(c, q.variables, q.verb, q.clauses);
      WithOfRestricted(c, EmitWrite(c, q.variables, q.verb, q.clauses), q.clauses);
    }
  }

  lemma {:induction false} RestrictedKeeps(e: string, q: Query)
    ensures var r := Restricted(e, q);
      r.verb == q.verb && r.comment == q.comment && r.variables == q.variables
      && r.clauses == RestrictedClauses(e, q.clauses)
  {
  }

  // ----- acceptance carries over ---------------------------------------------------------------------------

  lemma {:induction false} ConditionOfRestricted(c: Compiler, cl: Clause)
    ensures ConditionOk(c, RestrictedClause(c.Engine(), cl)) == ConditionOk(c, cl)
    ensures CteOk(RestrictedClause(c.Engine(), cl)) == CteOk(cl)
    ensures ValuesOf(RestrictedClause(c.Engine(), cl)) == ValuesOf(cl)
    ensures RestrictedClause(c.Engine(), cl).body.TableCte? == cl.body.TableCte?
  {
    var r := RestrictedClause(c.Engine(), cl);
    CheckedKept(c.Engine(), cl);
    AliasKept(c.Engine(), cl);
    hide RestrictedClause, ConditionOperator, ValuesOf, Blank, C.Alias, ValidEscape, C.CteBody, C.Scope;
  }

  /** Nothing that is checked in a clause is in what restriction cuts away. */
  lemma {:induction false} CheckedKept(e: string, cl: Clause)
    ensures var r := RestrictedClause(e, cl);
      && ConditionOperator(r) == ConditionOperator(cl) && ValuesOf(r) == ValuesOf(cl)
      && (r.body.Condition? <==> cl.body.Condition?)
      && (cl.body.Condition? ==> (if cl.body.shape.Like? then r.body.shape == cl.body.shape else !r.body.shape.Like?))
      && (if cl.body.TableCte? then r.body == cl.body else !r.body.TableCte?)
  {
    hide Restricted, RestrictedClauses, Flat;
    if cl.body.Condition? {
      var shape := cl.body.shape;
      assert RestrictedClause(e, cl).body == Condition(cl.body.section, cl.body.or, cl.body.not, RestrictedShape(e, shape));
    }
  }

  lemma {:induction false} InRestricted(e: string, cs: seq<Clause>, r: Clause) returns (cl: Clause)
    requires r in RestrictedClauses(e, cs)
    ensures cl in cs && Visible(cl, e) && r == RestrictedClause(e, cl) && ClauseSize(cl) <= ClausesSize(cs)
  {
    if Visible(cs[0], e) && r == RestrictedClause(e, cs[0]) {
      cl := cs[0];
    } else {
      cl := InRestricted(e, cs[1..], r);
    }
  }

  lemma {:induction false} ScopeOfRestricted(c: Compiler, cs: seq<Clause>, group: bool, env: Env)
    requires ScopeOk(c, cs, group, env)
    ensures ScopeOk(c, RestrictedClauses(c.Engine(), cs), group, env)
    decreases ClausesSize(cs), 2
  {
    OneOfRestricted(c.Engine(), cs, From);
    hide One, ClauseOk;
    forall r | r in RestrictedClauses(c.Engine(), cs) ensures ClauseOk(c, r, env) {
      var cl := InRestricted(c.Engine(), cs, r);
      ClauseOkOfRestricted(c, cl, env);
    }
  }

  lemma {:induction false} ClauseOkOfRestricted(c: Compiler, cl: Clause, env: Env)
    requires ClauseOk(c, cl, env)
    ensures ClauseOk(c, RestrictedClause(c.Engine(), cl), env)
    decreases ClauseSize(cl), 1
  {
    var e := c.Engine();
    ConditionOfRestricted(c, cl);
    ProblemsOfRestricted(c, cl, env);
    hide ConditionOk, CteOk, ValuesOk, ClauseProblems, ValuesOf;
  }

  lemma {:induction false} ProblemsOfRestricted(c: Compiler, cl: Clause, env: Env)
    requires ClauseProblems(c, cl, env) == []
    ensures ClauseProblems(c, RestrictedClause(c.Engine(), cl), env) == []
    decreases ClauseSize(cl), 0
  {
    var e := c.Engine();
    var r := RestrictedClause(e, cl);
    EmbeddedOfRestricted(e, cl);
    hide ScopeProblems, ScopeOk, RestrictedClause, RestrictedClauses;
    if SubQueryOf(cl).Some? {
      var sub := SubQueryOf(cl).value;
      ScopeAccepted(c, sub.clauses, false, SubEnv(cl, env, sub));
      ScopeOfRestricted(c, sub.clauses, false, SubEnv(cl, env, sub));
      ScopeAccepted(c, RestrictedClauses(e, sub.clauses), false, SubEnv(cl, env, sub));
    }
    if GroupOf(cl).Some? {
      var g := GroupOf(cl).value;
      ScopeAccepted(c, g.clauses, true, env);
      ScopeOfRestricted(c, g.clauses, true, env);
      ScopeAccepted(c, RestrictedClauses(e, g.clauses), true, env);
    }
    if JoinOf(cl).Some? {
      var join := JoinOf(cl).value;
      ScopeAccepted(c, join, true, env);
      ScopeOfRestricted(c, join, true, env);
      ScopeAccepted(c, RestrictedClauses(e, join), true, env);
    }
  }

  /** Problems of lists of insert and conflict clauses only depend on the kinds. */
  lemma {:induction false} RowsOfRestricted(c: Compiler, cs: seq<Clause>)
    requires forall cl <- cs :: Visible(cl, c.Engine())
    ensures var r := RestrictedClauses(c.Engine(), cs);
      && RowsProblems(r) == RowsProblems(cs) && EmptyConflicts(r) == EmptyConflicts(cs)
      && (r == [] <==> cs == [])
  {
    if cs != [] {
      RowsOfRestricted(c, cs[1..]);
      WriteKindOfRestricted(c.Engine(), cs[0]);
      var head := [RestrictedClause(c.Engine(), cs[0])];
      var tail := RestrictedClauses(c.Engine(), cs[1..]);
      assert (head + tail)[0] == head[0] && (head + tail)[1..] == tail;
      hide RestrictedClause;
    }
  }

  lemma {:induction false} MixedOfRestricted(e: string, inserts: seq<Clause>)
    requires !Mixed(inserts)
    ensures !Mixed(RestrictedClauses(e, inserts))
  {
    var r := RestrictedClauses(e, inserts);
    if Mixed(r) {
      var a :| a in r && a.body.InsertRow?;
      var b :| b in r && b.body.InsertQuery?;
      var a' := InRestricted(e, inserts, a);
      var b' := InRestricted(e, inserts, b);
      WriteKindOfRestricted(e, a');
      WriteKindOfRestricted(e, b');
    }
  }

  lemma {:induction false} WriteProblemsOfRestricted(c: Compiler, verb: Method, cs: seq<Clause>)
    requires WriteProblems(c, verb, cs) == []
    ensures WriteProblems(c, verb, RestrictedClauses(c.Engine(), cs)) == []
  {
    var e := c.Engine();
    ComponentsOfRestricted(e, cs, Conflict);
    ComponentsOfRestricted(e, cs, Combine);
    ComponentsOfRestricted(e, cs, Insert);
    RowsOfRestricted(c, Components(cs, Conflict, e));
    RowsOfRestricted(c, Components(cs, Combine, e));
    RowsOfRestricted(c, Components(cs, Insert, e));
    OneOfRestricted(e, cs, From);
    var f := One(cs, From, e);
    if f.Some? { WriteKindOfRestricted(e, f.value); }
    if verb == MethodInsert { MixedOfRestricted(e, Components(cs, Insert, e)); }
    if verb == MethodUpdate { UpdateProblemsOfRestricted(c, cs); }
    hide Components, One, RestrictedClause, RestrictedClauses, UpdateProblems, RowsProblems, EmptyConflicts, Mixed;
  }

  lemma {:induction false} UpdateProblemsOfRestricted(c: Compiler, cs: seq<Clause>)
    requires UpdateProblems(c, cs) == []
    ensures UpdateProblems(c, RestrictedClauses(c.Engine(), cs)) == []
  {
    var e := c.Engine();
    OneOfRestricted(e, cs, Update);
    var u := One(cs, Update, e);
    if u.Some? { WriteKindOfRestricted(e, u.value); }
    if Components(cs, Update, "") == [] {
      if Components(RestrictedClauses(e, cs), Update, "") != [] {
        var r := Components(RestrictedClauses(e, cs), Update, "")[0];
        assert r in RestrictedClauses(e, cs);
        var cl := InRestricted(e, cs, r);
        InComponents(cs, Update, "", cl);
      }
    }
  }

  /** A query that the compiler accepts is still accepted after dropping what the
      dialect does not see. */
  lemma {:induction false} AcceptanceCarriesOver(c: Compiler, q: Query)
    requires Accepts(c, q)
    ensures Accepts(c, Restricted(c.Engine(), q))
  {
    ScopeAccepted(c, q.clauses, false, q.variables);
    hide ScopeProblems, WriteProblems;
    ScopeOfRestricted(c, q.clauses, false, q.variables);
    ScopeAccepted(c, RestrictedClauses(c.Engine(), q.clauses), false, q.variables);
    WriteProblemsOfRestricted(c, q.verb, q.clauses);
  }
}
