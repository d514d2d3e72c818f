/** Replacing every reference to a query variable by the value that the scope chain
    in force there defines, and dropping the definitions: what the replaced query is
    like for everything that does not look at values. */
module Substitution {
  import opened Ast
  import opened Dialects
  import opened Emit
  import opened Statements
  import C = Ctes
  import S = Strings

  // ----- the replacement ------------------------------------------------------------------

  function SubstValue(env: Env, v: Value): Value {
    if v.Variable? && v.name in env then env[v.name] else v
  }

  function SubstValues(env: Env, values: seq<Value>): (r: seq<Value>)
    ensures |r| == |values|
    ensures forall i :: 0 <= i < |r| ==> r[i] == SubstValue(env, values[i])
  {
    seq(|values|, i requires 0 <= i < |values| => SubstValue(env, values[i]))
  }

  /** A query's own definitions come before those of the chain around it. */
  function Substituted(outer: Env, q: Query): (r: Query)
    ensures QuerySize(r) == QuerySize(q)
    decreases QuerySize(q), 0
  {
    q.(clauses := SubstClauses(outer + q.variables, q.clauses), variables := map[])
  }

  /** Groups and joins add no level to the chain. */
  function SubstGroup(env: Env, g: Query): (r: Query)
    ensures QuerySize(r) == QuerySize(g)
    decreases QuerySize(g), 0
  {
    g.(clauses := SubstClauses(env, g.clauses))
  }

  function SubstClauses(env: Env, cs: seq<Clause>): (r: seq<Clause>)
    ensures ClausesSize(r) == ClausesSize(cs) && |r| == |cs|
    decreases ClausesSize(cs), 2
  {
    if cs == [] then [] else [SubstClause(env, cs[0])] + SubstClauses(env, cs[1..])
  }

  function SubstFilter(env: Env, filter: Option<Query>): (r: Option<Query>)
    ensures r.Some? <==> filter.Some?
    ensures r.Some? ==> QuerySize(r.value) == QuerySize(filter.value)
    decreases if filter.Some? then QuerySize(filter.value) else 0, 1
  {
    match filter case Some(g) => Some(SubstGroup(env, g)) case None => None
  }

  /** A CTE body is a root of its own; value tables resolve nothing. */
  function SubstClause(env: Env, cl: Clause): (r: Clause)
    ensures ClauseSize(r) == ClauseSize(cl)
    decreases ClauseSize(cl), 1
  {
    match cl.body
    case FromQuery(q) => Clause(cl.engine, FromQuery(Substituted(env, q)))
    case QueryColumn(q) => Clause(cl.engine, QueryColumn(Substituted(env, q)))
    case AggregateColumn(aggregate, column, filter) => Clause(cl.engine, AggregateColumn(aggregate, column, SubstFilter(env, filter)))
    case Join(kind, cs) => Clause(cl.engine, Join(kind, SubstClauses(env, cs)))
    case CombineQuery(operation, all, q) => Clause(cl.engine, CombineQuery(operation, all, Substituted(env, q)))
    case QueryCte(alias, q) => Clause(cl.engine, QueryCte(alias, Substituted(map[], q)))
    case InsertRow(columns, values, returnId) => Clause(cl.engine, InsertRow(columns, SubstValues(env, values), returnId))
    case InsertQuery(columns, q) => Clause(cl.engine, InsertQuery(columns, Substituted(env, q)))
    case UpdateSet(columns, values) => Clause(cl.engine, UpdateSet(columns, SubstValues(env, values)))
    case Condition(section, or, not, shape) => Clause(cl.engine, Condition(section, or, not, SubstShape(env, shape)))
    case _ => cl
  }

  function SubstShape(env: Env, shape: Shape): (r: Shape)
    ensures ShapeSize(r) == ShapeSize(shape)
    decreases ShapeSize(shape), 0
  {
    match shape
    case Basic(column, op, v) => Basic(column, op, SubstValue(env, v))
    case Between(column, lower, higher) => Between(column, SubstValue(env, lower), SubstValue(env, higher))
    case In(column, values) => In(column, SubstValues(env, values))
    case InQuery(column, q) => InQuery(column, Substituted(env, q))
    case SubQuery(q, op, v) => SubQuery(Substituted(env, q), op, SubstValue(env, v))
    case Exists(q) => Exists(Substituted(env, q))
    case Nested(g) => Nested(SubstGroup(env, g))
    case DatePart(part, column, op, v) => DatePart(part, column, op, SubstValue(env, v))
    case _ => shape
  }

  // ----- selecting after replacing --------------------------------------------------------------

  /** The head and tail of a replaced list. */
  lemma {:induction false} SubstCons(env: Env, cs: seq<Clause>)
    requires cs != []
    ensures var r := SubstClauses(env, cs); r[0] == SubstClause(env, cs[0]) && r[1..] == SubstClauses(env, cs[1..])
  {
  }

  lemma {:induction false} SubstKeepsKind(env: Env, cl: Clause)
    ensures Tag(SubstClause(env, cl)) == Tag(cl) && SubstClause(env, cl).engine == cl.engine
  {
    hide SubstClauses, Substituted, SubstFilter, SubstShape, SubstValues;
  }

  lemma {:induction false} SubstConcat(env: Env, a: seq<Clause>, b: seq<Clause>)
    ensures SubstClauses(env, a + b) == SubstClauses(env, a) + SubstClauses(env, b)
  {
    if a == [] {
      assert a + b == b;
    } else {
      assert (a + b)[1..] == a[1..] + b;
      SubstConcat(env, a[1..], b);
    }
  }

  lemma {:induction false} ComponentsOfSubst(env: Env, cs: seq<Clause>, of: Component, e: string)
    ensures Components(SubstClauses(env, cs), of, e) == SubstClauses(env, Components(cs, of, e))
  {
    hide SubstClause;
    if cs != [] {
      ComponentsOfSubst(env, cs[1..], of, e);
      SubstKeepsKind(env, cs[0]);
      SubstCons(env, cs);
      var kept := Components(cs[1..], of, e);
      SubstCons(env, [cs[0]] + kept);
      assert ([cs[0]] + kept)[1..] == kept;
    }
  }

  lemma {:induction false} FirstScopedOfSubst(env: Env, cs: seq<Clause>, engine: string)
    ensures FirstScoped(SubstClauses(env, cs), engine) ==
      match FirstScoped(cs, engine) case Some(cl) => Some(SubstClause(env, cl)) case None => None
  {
    hide SubstClause;
    if cs != [] {
      FirstScopedOfSubst(env, cs[1..], engine);
      SubstKeepsKind(env, cs[0]);
      SubstCons(env, cs);
    }
  }

  lemma {:induction false} OneOfSubst(env: Env, cs: seq<Clause>, of: Component, e: string)
    ensures One(SubstClauses(env, cs), of, e) ==
      match One(cs, of, e) case Some(cl) => Some(SubstClause(env, cl)) case None => None
  {
    ComponentsOfSubst(env, cs, of, e);
    FirstScopedOfSubst(env, Components(cs, of, e), e);
    FirstScopedOfSubst(env, Components(cs, of, e), "");
  }

  lemma {:induction false} WithoutOfSubst(env: Env, cs: seq<Clause>, of: set<Component>)
    ensures Without(SubstClauses(env, cs), of) == SubstClauses(env, Without(cs, of))
  {
    hide SubstClause;
    if cs != [] {
      WithoutOfSubst(env, cs[1..], of);
      SubstKeepsKind(env, cs[0]);
      SubstCons(env, cs);
      var kept := Without(cs[1..], of);
      SubstCons(env, [cs[0]] + kept);
      assert ([cs[0]] + kept)[1..] == kept;
    }
  }

  lemma {:induction false} ChosenOfSubst(c: Compiler, env: Env, cs: seq<Clause>, of: Component)
    ensures Chosen(c, SubstClauses(env, cs), of) == SubstClauses(env, Chosen(c, cs, of))
  {
    var e := c.Engine();
    OneOfSubst(env, cs, From, e);
    OneOfSubst(env, cs, Aggregate, e);
    ComponentsOfSubst(env, cs, of, e);
    if of == From && One(cs, From, e).Some? {
      var cl := One(cs, From, e).value;
      SubstCons(env, [cl]);
      assert [cl][1..] == [] && SubstClauses(env, []) == [];
      assert SubstClauses(env, [cl]) == [SubstClause(env, cl)];
    }
  }

  // ----- fragments --------------------------------------------------------------------------------

  lemma {:induction false} KindOfSubst(env: Env, cl: Clause)
    ensures var r := SubstClause(env, cl);
      && ((cl.body.LimitTo? || cl.body.OffsetBy? || cl.body.Aggregated?) ==> r == cl)
      && ((r.body.LimitTo? || r.body.OffsetBy? || r.body.Aggregated?) ==> r == cl)
  {
  }

  lemma {:induction false} LimitsOfSubst(c: Compiler, env: Env, cs: seq<Clause>)
    ensures LimitOf(c, SubstClauses(env, cs)) == LimitOf(c, cs)
    ensures OffsetOf(c, SubstClauses(env, cs)) == OffsetOf(c, cs)
  {
    OneOfSubst(env, cs, Limit, c.Engine());
    OneOfSubst(env, cs, Offset, c.Engine());
    hide One, SubstClause, SubstClauses;
    var l, o := One(cs, Limit, c.Engine()), One(cs, Offset, c.Engine());
    if l.Some? { KindOfSubst(env, l.value); }
    if o.Some? { KindOfSubst(env, o.value); }
  }

  lemma {:induction false} OrderOfSubst(c: Compiler, env: Env, cl: Clause)
    requires Tag(cl) == Order
    ensures OrderOut(c, SubstClause(env, cl)) == OrderOut(c, cl)
  {
  }

  lemma {:induction false} OrderPartsOfSubst(c: Compiler, env: Env, cs: seq<Clause>)
    requires forall cl <- cs :: Tag(cl) == Order
    ensures OrderParts(c, SubstClauses(env, cs)) == OrderParts(c, cs)
  {
    hide SubstClause, OrderOut;
    if cs != [] {
      OrderPartsOfSubst(c, env, cs[1..]);
      SubstCons(env, cs);
      OrderOfSubst(c, env, cs[0]);
    }
  }

  lemma {:induction false} OrdersOfSubst(c: Compiler, env: Env, cs: seq<Clause>)
    ensures var orders := Components(cs, Order, c.Engine());
      var orders' := Components(SubstClauses(env, cs), Order, c.Engine());
      OrderParts(c, orders') == OrderParts(c, orders) && (orders' == [] <==> orders == [])
  {
    ComponentsOfSubst(env, cs, Order, c.Engine());
    OrderPartsOfSubst(c, env, Components(cs, Order, c.Engine()));
  }

  lemma {:induction false} ConnectiveOfSubst(env: Env, cl: Clause)
    ensures Connective(SubstClause(env, cl)) == Connective(cl)
  {
  }

  lemma {:induction false} ConnectOfSubst(env: Env, cs: seq<Clause>, parts: seq<Out>, started: bool)
    requires |cs| == |parts|
    ensures Connect(SubstClauses(env, cs), parts, started) == Connect(cs, parts, started)
  {
    hide SubstClause, Connective;
    if cs != [] {
      ConnectOfSubst(env, cs[1..], parts[1..], started || parts[0].sql != []);
      SubstCons(env, cs);
      ConnectiveOfSubst(env, cs[0]);
    }
  }

  lemma {:induction false} HeadOfSubst(c: Compiler, outer: Env, q: Query, columns: seq<Out>)
    ensures HeadSection(c, Substituted(outer, q), columns) == HeadSection(c, q, columns)
  {
    var env := outer + q.variables;
    LimitsOfSubst(c, env, q.clauses);
    OneOfSubst(env, q.clauses, Aggregate, c.Engine());
    hide One, SubstClause, SubstClauses, LimitOf, OffsetOf;
    var a := One(q.clauses, Aggregate, c.Engine());
    if a.Some? { KindOfSubst(env, a.value); }
  }

  lemma {:induction false} AssembleOfSubst(c: Compiler, outer: Env, q: Query, p: Parts)
    requires PartsFit(c, q.clauses, p)
    ensures PartsFit(c, Substituted(outer, q).clauses, p)
    ensures Assemble(c, Substituted(outer, q), p) == Assemble(c, q, p)
  {
    var env := outer + q.variables;
    ChosenOfSubst(c, env, q.clauses, Where);
    ChosenOfSubst(c, env, q.clauses, Having);
    ConnectOfSubst(env, Chosen(c, q.clauses, Where), p.wheres, false);
    ConnectOfSubst(env, Chosen(c, q.clauses, Having), p.havings, false);
    HeadOfSubst(c, outer, q, p.columns);
    OrdersOfSubst(c, env, q.clauses);
    LimitsOfSubst(c, env, q.clauses);
    hide Chosen, Connect, HeadSection, OrderParts, LimitOf, OffsetOf, Components, LimitSection, Joined, SubstClauses;
  }

  lemma {:induction false} PlainUnchanged(env: Env, cs: seq<Clause>)
    requires forall cl <- cs :: cl.body.Column? || cl.body.RawColumn? || (cl.body.Condition? && cl.body.shape.IsNull?)
    ensures SubstClauses(env, cs) == cs
  {
    if cs != [] {
      PlainUnchanged(env, cs[1..]);
      assert SubstClause(env, cs[0]) == cs[0];
      assert cs == [cs[0]] + cs[1..];
    }
  }

  // ----- rewritten queries ----------------------------------------------------------------------------

  lemma {:induction false} AppendOfSubst(c: Compiler, outer: Env, q: Query, bodies: seq<Body>)
    requires forall b <- bodies :: b.Column? || b.RawColumn? || (b.Condition? && b.shape.IsNull?)
    ensures Substituted(outer, Append(q, bodies)) == Append(Substituted(outer, q), bodies)
  {
    var env := outer + q.variables;
    var added := Stamp(q.engineScope, bodies);
    forall cl | cl in added ensures cl.body in bodies {
      var i :| 0 <= i < |added| && added[i] == cl;
    }
    SubstConcat(env, q.clauses, added);
    PlainUnchanged(env, added);
  }

  lemma {:induction false} DropOfSubst(outer: Env, q: Query, of: set<Component>)
    ensures Substituted(outer, Drop(q, of)) == Drop(Substituted(outer, q), of)
  {
    WithoutOfSubst(outer + q.variables, q.clauses, of);
  }

  lemma {:induction false} ColumnsOfSubst(c: Compiler, outer: Env, q: Query)
    ensures RowNumberColumns(c, Substituted(outer, q)) == RowNumberColumns(c, q)
  {
    var env := outer + q.variables;
    OrdersOfSubst(c, env, q.clauses);
    WithoutOfSubst(env, q.clauses, {Order, Limit, Offset});
    ComponentsOfSubst(env, Without(q.clauses, {Order, Limit, Offset}), Select, c.Engine());
    hide Components, OrderParts, Without, SubstClauses;
  }

  lemma {:induction false} RowNumberedOfSubst(c: Compiler, outer: Env, q: Query)
    ensures RowNumbered(c, Substituted(outer, q)) == Substituted(outer, RowNumbered(c, q))
  {
    ColumnsOfSubst(c, outer, q);
    DropOfSubst(outer, q, {Order, Limit, Offset});
    hide Substituted, RowNumberColumns, Drop;
    AppendOfSubst(c, outer, Drop(q, {Order, Limit, Offset}), RowNumberColumns(c, q));
  }

  lemma {:induction false} ExistsCopyOfSubst(outer: Env, q: Query)
    ensures ExistsCopy(Substituted(outer, q)) == Substituted(outer, ExistsCopy(q))
  {
    var env := outer + q.variables;
    var one := Clause("", RawColumn(Select, Raw(Written("1"), [])));
    WithoutOfSubst(env, q.clauses, {Select});
    SubstConcat(env, Without(q.clauses, {Select}), [one]);
    SubstCons(env, [one]);
    assert SubstClauses(env, [one]) == [one];
  }

  /** Pushing the same definitions twice changes nothing. */
  lemma {:induction false} PushTwice(outer: Env, q: Query)
    ensures Substituted(outer + q.variables, q) == Substituted(outer, q)
  {
    assert outer + q.variables + q.variables == outer + q.variables;
  }

  lemma {:induction false} SubstDefinition(outer: Env, q: Query)
    ensures var s := Substituted(outer, q);
      && s.clauses == SubstClauses(outer + q.variables, q.clauses) && s.variables == map[]
      && map[] + s.variables == map[]
  {
  }

  lemma {:induction false} RowNumberedKeeps(c: Compiler, q: Query)
    ensures RowNumbered(c, q).variables == q.variables
  {
  }

  lemma {:induction false} AliasOfSubst(env: Env, q: Query)
    ensures Substituted(env, q).alias == q.alias
  {
  }

  // ----- CTEs -----------------------------------------------------------------------------------------------

  /** A CTE clause is replaced the same way wherever it stands. */
  lemma {:induction false} CteOfSubst(env: Env, cl: Clause)
    requires Tag(cl) == Cte && (cl.body.QueryCte? || cl.body.RawCte? || cl.body.TableCte?)
    ensures SubstClause(env, cl) == SubstClause(map[], cl)
  {
  }

  /** CTE clauses are of the three CTE forms. */
  predicate CteFormed(cs: seq<Clause>)
    decreases ClausesSize(cs), 2
  {
    cs == [] || (CteFormedClause(cs[0]) && CteFormed(cs[1..]))
  }

  predicate CteFormedClause(cl: Clause)
    decreases ClauseSize(cl), 1
  {
    && (Tag(cl) == Cte ==> cl.body.QueryCte? || cl.body.RawCte? || cl.body.TableCte?)
    && (C.Scope(cl).Some? ==> CteFormed(C.Scope(cl).value))
  }

  function Replaced(ctes: seq<Clause>): (r: seq<Clause>) { SubstClauses(map[], ctes) }

  function FoundOfSubst(f: C.Found): C.Found { C.Found(Replaced(f.ctes), f.seen) }

  lemma {:induction false} EmbeddedOfSubst(env: Env, cl: Clause)
    ensures var r := SubstClause(env, cl);
      && C.Alias(r) == C.Alias(cl)
      && (C.Scope(r).Some? <==> C.Scope(cl).Some?)
      && (C.CteBody(r).Some? <==> C.CteBody(cl).Some?)
    ensures C.CteBody(cl).Some? ==>
      C.CteBody(SubstClause(env, cl)).value == SubstClauses(cl.body.query.variables, C.CteBody(cl).value)
    ensures C.Scope(cl).Some? ==>
      C.Scope(SubstClause(env, cl)).value == SubstClauses(ScopeEnv(env, cl), C.Scope(cl).value)
  {
    EmbeddedKinds(env, cl);
    if SubQueryOf(cl).Some? {
      var outer := if cl.body.QueryCte? then map[] else env;
      if cl.body.QueryCte? { assert map[] + cl.body.query.variables == cl.body.query.variables; }
      SubstDefinition(outer, SubQueryOf(cl).value);
    }
    hide SubstClause, SubstClauses, Substituted;
  }

  lemma {:induction false} EmbeddedKinds(env: Env, cl: Clause)
    ensures var r := SubstClause(env, cl);
      && Tag(r) == Tag(cl) && r.engine == cl.engine && C.Alias(r) == C.Alias(cl)
      && (r.body.QueryCte? <==> cl.body.QueryCte?)
      && SubQueryOf(r) == (match SubQueryOf(cl)
           case Some(q) => Some(Substituted(if cl.body.QueryCte? then map[] else env, q)) case None => None)
      && JoinOf(r) == (match JoinOf(cl) case Some(cs) => Some(SubstClauses(env, cs)) case None => None)
      && GroupOf(r) == (match GroupOf(cl) case Some(g) => Some(SubstGroup(env, g)) case None => None)
  {
    SubstKeepsKind(env, cl);
    CteAliasOfSubst(env, cl);
    hide SubstClauses, Substituted, SubstGroup, SubstValues, Tag, C.Alias;
  }

  lemma {:induction false} CteAliasOfSubst(env: Env, cl: Clause)
    ensures C.Alias(SubstClause(env, cl)) == C.Alias(cl)
  {
    hide SubstClauses, Substituted, SubstGroup, SubstFilter, SubstShape, SubstValues;
  }

  /** The chain in force in the scope a clause carries. */
  function ScopeEnv(env: Env, cl: Clause): Env {
    match SubQueryOf(cl)
    case Some(q) => if cl.body.QueryCte? then q.variables else env + q.variables
    case None => env
  }

  lemma {:induction false} FormedMember(cs: seq<Clause>, cl: Clause)
    requires CteFormed(cs) && cl in cs
    ensures CteFormedClause(cl)
  {
    if cs[0] != cl { FormedMember(cs[1..], cl); }
  }

  lemma {:induction false} FormedSubset(cs: seq<Clause>, part: seq<Clause>)
    requires CteFormed(cs) && forall cl <- part :: cl in cs
    ensures CteFormed(part)
  {
    if part != [] {
      FormedMember(cs, part[0]);
      FormedSubset(cs, part[1..]);
    }
  }

  lemma {:induction false} BodyIsScope(cl: Clause)
    ensures C.CteBody(cl).Some? ==> C.Scope(cl) == C.CteBody(cl)
  {
  }

  lemma {:induction false} FindOfSubst(e: string, seen: set<string>, env: Env, cs: seq<Clause>)
    requires CteFormed(cs)
    ensures C.Find(e, seen, SubstClauses(env, cs)) == FoundOfSubst(C.Find(e, seen, cs))
    decreases ClausesSize(cs), 3
  {
    var ctes := Components(cs, Cte, e);
    ComponentsOfSubst(env, cs, Cte, e);
    FormedSubset(cs, ctes);
    LevelOfSubst(e, seen, env, ctes, []);
    var level := C.FindLevel(e, seen, ctes, []);
    RestOfSubst(e, level.seen, env, cs);
    SubstConcat(map[], level.ctes, C.FindRest(e, level.seen, cs).ctes);
  }

  lemma {:induction false} LevelOfSubst(e: string, seen: set<string>, env: Env, ctes: seq<Clause>, result: seq<Clause>)
    requires CteFormed(ctes) && forall cl <- ctes :: Tag(cl) == Cte
    ensures C.FindLevel(e, seen, SubstClauses(env, ctes), Replaced(result))
         == FoundOfSubst(C.FindLevel(e, seen, ctes, result))
    decreases ClausesSize(ctes), 2
  {
    if ctes != [] {
      var cl := ctes[0];
      SubstCons(env, ctes);
      EmbeddedOfSubst(env, cl);
      CteOfSubst(env, cl);
      BodyIsScope(cl);
      hide SubstClause, SubstClauses, CteFormedClause;
      if C.Alias(cl) in seen {
        LevelOfSubst(e, seen, env, ctes[1..], result);
      } else {
        var seen' := seen + {C.Alias(cl)};
        var body := C.FindBody(e, seen', cl);
        if C.CteBody(cl).Some? {
          FormedScope(cl);
          FindOfSubst(e, seen', cl.body.query.variables, C.CteBody(cl).value);
        }
        NothingReplaced();
        assert C.FindBody(e, seen', SubstClause(env, cl)) == FoundOfSubst(body);
        SubstConcat(map[], result, [cl]);
        SubstConcat(map[], body.ctes, result + [cl]);
        SubstOne(map[], cl);
        LevelOfSubst(e, body.seen, env, ctes[1..], body.ctes + (result + [cl]));
      }
    }
  }

  lemma {:induction false} FormedScope(cl: Clause)
    requires CteFormedClause(cl) && C.Scope(cl).Some?
    ensures CteFormed(C.Scope(cl).value)
  {
  }

  lemma {:induction false} NothingReplaced()
    ensures SubstClauses(map[], []) == []
  {
  }

  lemma {:induction false} SubstOne(env: Env, cl: Clause)
    ensures SubstClauses(env, [cl]) == [SubstClause(env, cl)]
  {
    SubstCons(env, [cl]);
  }

  lemma {:induction false} RestOfSubst(e: string, seen: set<string>, env: Env, cs: seq<Clause>)
    requires CteFormed(cs)
    ensures C.FindRest(e, seen, SubstClauses(env, cs)) == FoundOfSubst(C.FindRest(e, seen, cs))
    decreases ClausesSize(cs), 2
  {
    if cs != [] {
      var cl := cs[0];
      var here := if C.Searched(cl, e) then C.Find(e, seen, C.Scope(cl).value) else C.Found([], seen);
      SubstCons(env, cs);
      SubstKeepsKind(env, cl);
      EmbeddedOfSubst(env, cl);
      NothingReplaced();
      hide SubstClause, SubstClauses, CteFormedClause;
      if C.Searched(cl, e) {
        FormedScope(cl);
        FindOfSubst(e, seen, ScopeEnv(env, cl), C.Scope(cl).value);
      }
      RestOfSubst(e, here.seen, env, cs[1..]);
      SubstConcat(map[], here.ctes, C.FindRest(e, here.seen, cs[1..]).ctes);
    }
  }

  // ----- whole statements ---------------------------------------------------------------------------------------

  lemma {:induction false} InnerOfSubst(c: Compiler, q: Query, kind: string, columns: seq<string>)
    ensures InnerQuery(Substituted(map[], q), kind, columns) == Substituted(map[], InnerQuery(q, kind, columns))
  {
    var bare := Drop(q, {Limit, Order, Group});
    DropOfSubst(map[], q, {Limit, Order, Group});
    if q.distinct {
      DropOfSubst(map[], bare, {Aggregate, Select});
      AppendOfSubst(c, map[], Drop(bare, {Aggregate, Select}), ColumnBodies(columns));
    } else {
      AppendOfSubst(c, map[], bare, GuardBodies(columns));
    }
  }

  lemma {:induction false} TransformOfSubst(c: Compiler, q: Query)
    ensures TransformAggregate(Substituted(map[], q), c.Engine()) == Substituted(map[], TransformAggregate(q, c.Engine()))
  {
    var env := map[] + q.variables;
    OneOfSubst(env, q.clauses, Aggregate, c.Engine());
    var cl := One(q.clauses, Aggregate, c.Engine());
    if cl.Some? { KindOfSubst(env, cl.value); }
    if cl.Some? && cl.value.body.Aggregated? {
      var Aggregated(kind, columns) := cl.value.body;
      DropOfSubst(map[], q, {Limit, Order, Group});
      InnerOfSubst(c, q, kind, columns);
      PairOfSubst(Clause("", Aggregated(kind, ["*"])), InnerQuery(q, kind, columns));
    }
  }

  lemma {:induction false} PairOfSubst(a: Clause, inner: Query)
    requires a.body.Aggregated?
    ensures Substituted(map[], EmptyQuery.(clauses := [a, Clause("", FromQuery(inner))]))
         == EmptyQuery.(clauses := [a, Clause("", FromQuery(Substituted(map[], inner)))])
  {
    var b := Clause("", FromQuery(inner));
    var none: Env := map[];
    assert none + none == none;
    SubstCons(map[], [a, b]);
    assert [a, b][1..] == [b];
    SubstOne(map[], b);
    assert SubstClauses(map[], [a, b]) == [a] + [SubstClause(map[], b)];
  }

  lemma {:induction false} TransformFormed(c: Compiler, q: Query)
    requires CteFormed(q.clauses)
    ensures CteFormed(TransformAggregate(q, c.Engine()).clauses)
  {
    var cl := One(q.clauses, Aggregate, c.Engine());
    if cl.Some? && cl.value.body.Aggregated? {
      var Aggregated(kind, columns) := cl.value.body;
      FormedSubset(q.clauses, Without(q.clauses, {Limit, Order, Group}));
      InnerFormed(q, kind, columns);
      WrapperFormed(Clause("", Aggregated(kind, ["*"])), InnerQuery(q, kind, columns));
    }
  }

  lemma {:induction false} InnerFormed(q: Query, kind: string, columns: seq<string>)
    requires CteFormed(q.clauses)
    ensures CteFormed(InnerQuery(q, kind, columns).clauses)
  {
    var bare := Without(q.clauses, {Limit, Order, Group});
    var kept := if q.distinct then Without(bare, {Aggregate, Select}) else bare;
    var added := Stamp(q.engineScope, if q.distinct then ColumnBodies(columns) else GuardBodies(columns));
    InnerParts(q, kind, columns);
    AddedArePlain(q, columns);
    hide CteFormed, Without, Stamp, ColumnBodies, GuardBodies, InnerQuery;
    FormedSubset(q.clauses, kept);
    FormedConcat(kept, added);
  }

  lemma {:induction false} WrapperFormed(a: Clause, inner: Query)
    requires a.body.Aggregated? && CteFormed(inner.clauses)
    ensures CteFormed([a, Clause("", FromQuery(inner))])
  {
    var b := Clause("", FromQuery(inner));
    assert CteFormedClause(b);
    assert [a, b][1..] == [b] && [b][1..] == [];
    assert CteFormed([b]) && CteFormed([a, b]);
  }

  lemma {:induction false} InnerParts(q: Query, kind: string, columns: seq<string>)
    ensures var i := InnerQuery(q, kind, columns);
      var bare := Without(q.clauses, {Limit, Order, Group});
      && i.variables == q.variables
      && i.clauses == (if q.distinct then Without(bare, {Aggregate, Select}) else bare)
           + Stamp(q.engineScope, if q.distinct then ColumnBodies(columns) else GuardBodies(columns))
  {
  }

  lemma {:induction false} AddedArePlain(q: Query, columns: seq<string>)
    ensures var added := Stamp(q.engineScope, if q.distinct then ColumnBodies(columns) else GuardBodies(columns));
      forall cl <- added ::
        && (cl.body.Column? || cl.body.RawColumn? || (cl.body.Condition? && cl.body.shape.IsNull?))
        && Tag(cl) != Cte && C.Scope(cl).None?
  {
    var added := Stamp(q.engineScope, if q.distinct then ColumnBodies(columns) else GuardBodies(columns));
    forall cl | cl in added
      ensures (cl.body.Column? || (cl.body.Condition? && cl.body.shape.IsNull?)) && Tag(cl) != Cte && C.Scope(cl).None?
    {
      var i :| 0 <= i < |added| && added[i] == cl;
    }
  }

  lemma {:induction false} FormedConcat(a: seq<Clause>, b: seq<Clause>)
    requires CteFormed(a)
    requires forall cl <- b :: Tag(cl) != Cte && C.Scope(cl).None?
    ensures CteFormed(a + b)
  {
    if a != [] {
      FormedConcat(a[1..], b);
      assert (a + b)[1..] == a[1..] + b;
    } else {
      assert a + b == b;
      if b != [] {
        FormedConcat([], b[1..]);
        assert [] + b[1..] == b[1..];
      }
    }
  }

  lemma {:induction false} WriteKindOfSubst(env: Env, cl: Clause)
    ensures var r := SubstClause(env, cl);
      && ((cl.body.FromTable? || cl.body.FromRaw? || cl.body.OnConflict? || cl.body.Increment?) ==> r == cl)
      && (r.body.FromTable? <==> cl.body.FromTable?) && (r.body.FromRaw? <==> cl.body.FromRaw?)
      && (r.body.OnConflict? <==> cl.body.OnConflict?) && (r.body.UpdateSet? <==> cl.body.UpdateSet?)
      && (r.body.Increment? <==> cl.body.Increment?) && (r.body.InsertRow? <==> cl.body.InsertRow?)
      && (r.body.InsertQuery? <==> cl.body.InsertQuery?)
      && (cl.body.InsertQuery? ==>
            r.body.columns == cl.body.columns && r.body.query == Substituted(env, cl.body.query))
      && (cl.body.InsertRow? ==>
            r.body == InsertRow(cl.body.columns, SubstValues(env, cl.body.values), cl.body.returnId))
      && (cl.body.UpdateSet? ==> r.body == UpdateSet(cl.body.columns, SubstValues(env, cl.body.values)))
  {
  }

  lemma {:induction false} TargetOfSubst(c: Compiler, env: Env, cs: seq<Clause>)
    ensures var r := SubstClauses(env, cs);
      && WriteTable(c, r) == WriteTable(c, cs) && TargetAlias(c, r) == TargetAlias(c, cs)
      && ConflictTail(c, r) == ConflictTail(c, cs)
      && forall multi :: InsertStart(c, r, multi) == InsertStart(c, cs, multi)
  {
    OneOfSubst(env, cs, From, c.Engine());
    OneOfSubst(env, cs, Conflict, c.Engine());
    hide One, SubstClauses, SubstClause, RawOut;
    var f, k := One(cs, From, c.Engine()), One(cs, Conflict, c.Engine());
    if f.Some? { WriteKindOfSubst(env, f.value); }
    if k.Some? { WriteKindOfSubst(env, k.value); }
  }

  lemma {:induction false} SubstKeeps(q: Query)
    ensures var s := Substituted(map[], q);
      s.verb == q.verb && s.comment == q.comment && s.variables == map[]
      && s.clauses == SubstClauses(q.variables, q.clauses)
  {
    assert map[] + q.variables == q.variables;
  }

}
