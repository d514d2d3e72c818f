/** The wire format of a whole query and its conversion, hooked at every pointcut,
    into a builder query. */
module WireQuery {
  import opened Ast
  import opened Dialects
  import opened Emit
  import opened Placeholders
  import opened Filters
  import FM = FilterMeaning
  import S = Strings
  import V = Validation

  datatype OrderBy = OrderBy(column: string, xsc: string)

  datatype QData = QData(
    from: seq<string>, select: seq<string>, filter: Filter, orderBy: seq<OrderBy>, top: int, skip: int, count: bool)

  // ----- validation ----------------------------------------------------------------------------

  predicate ValidFrom(from: seq<string>) { from != [] && "" !in from }

  function OrderProblems(o: OrderBy): seq<Problem> {
    (if o.column == "" then [ByRequired] else [])
    + (if o.xsc != "" && o.xsc != "asc" && o.xsc != "desc" then [BadDirection(o.column, o.xsc)] else [])
  }

  function OrdersProblems(orders: seq<OrderBy>): seq<Problem> {
    if orders == [] then [] else OrderProblems(orders[0]) + OrdersProblems(orders[1..])
  }

  /** All problems at once. */
  function Problems(d: QData): seq<Problem> {
    (if ValidFrom(d.from) then [] else [FromRequired])
    + OrdersProblems(d.orderBy)
    + FilterProblems(d.filter)
    + (if d.top < 0 then [Negative("top", d.top)] else [])
    + (if d.skip < 0 then [Negative("skip", d.skip)] else [])
  }

  method Validate(d: QData) returns (errs: seq<Problem>)
    ensures errs == Problems(d)
  {
    hide ValidFrom, OrderProblems, FilterProblems;
    errs := [];
    if !ValidFrom(d.from) { errs := errs + [FromRequired]; }
    ghost var start := errs;
    assert d.orderBy[0..] == d.orderBy;
    for i := 0 to |d.orderBy|
      invariant errs + OrdersProblems(d.orderBy[i..]) == start + OrdersProblems(d.orderBy)
    {
      assert d.orderBy[i..][1..] == d.orderBy[i + 1..];
      ghost var rest := OrdersProblems(d.orderBy[i + 1..]);
      assert errs + (OrderProblems(d.orderBy[i]) + rest) == (errs + OrderProblems(d.orderBy[i])) + rest;
      errs := errs + OrderProblems(d.orderBy[i]);
    }
    assert d.orderBy[|d.orderBy|..] == [] && errs + [] == errs;
    var more := Filters.Validate(d.filter);
    errs := errs + more;
    if d.top < 0 { errs := errs + [Negative("top", d.top)]; }
    if d.skip < 0 { errs := errs + [Negative("skip", d.skip)]; }
  }

  // ----- conversion -------------------------------------------------------------------------------

  function FromStages(hooks: seq<Hook>): (stages: seq<seq<string> -> Result<seq<string>>>)
    ensures |stages| == |hooks|
  {
    seq(|hooks|, i requires 0 <= i < |hooks| => hooks[i].from)
  }

  function SelectStages(hooks: seq<Hook>): (stages: seq<string -> Result<string>>)
    ensures |stages| == |hooks|
  {
    seq(|hooks|, i requires 0 <= i < |hooks| => hooks[i].select)
  }

  function OrderStages(hooks: seq<Hook>): (stages: seq<string -> Result<string>>)
    ensures |stages| == |hooks|
  {
    seq(|hooks|, i requires 0 <= i < |hooks| => hooks[i].orderBy)
  }

  /** Nil hooks are dropped. */
  function Present(hooks: seq<Option<Hook>>): seq<Hook> {
    if hooks == [] then [] else (if hooks[0].Some? then [hooks[0].value] else []) + Present(hooks[1..])
  }

  /** The conventional join of a further table. */
  function Include(primary: string, table: string): Clause {
    Clause("", Join("INNER JOIN", [
      Clause("", FromTable(table)),
      Clause("", Condition(Where, false, false,
                           TwoColumns(primary + "." + table + "_id", "=", table + "." + table + "_id")))]))
  }

  function Includes(primary: string, tables: seq<string>): seq<Clause> {
    if tables == [] then [] else [Include(primary, tables[0])] + Includes(primary, tables[1..])
  }

  function Sources(from: seq<string>): seq<Clause>
    requires from != []
  {
    [Clause("", FromTable(from[0]))] + Includes(from[0], from[1..])
  }

  /** An item with an opening parenthesis is a raw expression. */
  function Projected(column: string): Clause {
    Clause("", if '(' in column then RawColumn(Select, Raw(Written(column), [])) else Column(Select, column))
  }

  function Projections(hooks: seq<Hook>, columns: seq<string>): Result<seq<Clause>> {
    if columns == [] then Ok([])
    else
      match Chain(SelectStages(hooks), columns[0])
      case Err(problems) => Err(problems)
      case Ok(column) => Prefixed([Projected(column)], Projections(hooks, columns[1..]))
  }

  function Sorted(column: string, xsc: string): Clause {
    Clause("", OrderRaw(Raw(Written(column + if xsc == "desc" then " DESC" else " ASC"), [])))
  }

  function Sorts(hooks: seq<Hook>, orders: seq<OrderBy>): Result<seq<Clause>> {
    if orders == [] then Ok([])
    else
      match Chain(OrderStages(hooks), orders[0].column)
      case Err(problems) => Err(problems)
      case Ok(column) =>
        if column == "" then Err([ByRequired])
        else Prefixed([Sorted(column, orders[0].xsc)], Sorts(hooks, orders[1..]))
  }

  function Pagination(top: int, skip: int): seq<Clause> {
    if top > 0 then [Clause("", LimitTo(top)), Clause("", OffsetBy(skip))] else []
  }

  /** The clauses after the filter: a count takes nothing else. */
  function Rest(hooks: seq<Hook>, d: QData): Result<seq<Clause>> {
    if d.count then Ok([Clause("", Aggregated("count", ["*"]))])
    else
      match Projections(hooks, d.select)
      case Err(problems) => Err(problems)
      case Ok(columns) =>
        match Sorts(hooks, d.orderBy)
        case Err(problems) => Err(problems)
        case Ok(orders) => Ok(columns + orders + Pagination(d.top, d.skip))
  }

  function ToQuery(show: Data -> string, hooks: seq<Hook>, d: QData): Result<Query> {
    if Problems(d) != [] then Err(Problems(d))
    else
      match Chain(FromStages(hooks), d.from)
      case Err(problems) => Err(problems)
      case Ok(from) =>
        if !ValidFrom(from) then Err([FromRequired])
        else
          match Resolve(show, hooks, d.filter)
          case Err(problems) => Err(problems)
          case Ok(g) =>
            ResolvedReady(show, hooks, d.filter);
            match Rest(hooks, d)
            case Err(problems) => Err(problems)
            case Ok(rest) => Ok(EmptyQuery.(clauses := Sources(from) + Landed(g) + rest))
  }

  /** The loops of the conversion. */
  method Convert(show: Data -> string, hooks: seq<Option<Hook>>, d: QData) returns (r: Result<Query>)
    ensures r == ToQuery(show, Present(hooks), d)
  {
    hide Problems, Chain, Projections, Sorts, Landed, Resolve, ReadyTree, FromStages, Present, Sources;
    var errs := Validate(d);
    if errs != [] { return Err(errs); }
    var chain := DropNil(hooks);
    var hooked := RunChain(FromStages(chain), d.from);
    if hooked.Err? { return Err(hooked.problems); }
    var from := hooked.value;
    if !ValidFrom(from) { return Err([FromRequired]); }
    var sources := JoinAll(from);
    var resolved := ResolveFilter(show, chain, d.filter);
    if resolved.Err? { return Err(resolved.problems); }
    ResolvedReady(show, chain, d.filter);
    var out := Land(resolved.value, sources);
    if d.count { return Ok(EmptyQuery.(clauses := out + [Clause("", Aggregated("count", ["*"]))])); }
    var columns := ProjectAll(chain, d.select);
    if columns.Err? { return Err(columns.problems); }
    var orders := SortAll(chain, d.orderBy);
    if orders.Err? { return Err(orders.problems); }
    var page := if d.top > 0 then [Clause("", LimitTo(d.top)), Clause("", OffsetBy(d.skip))] else [];
    assert out + (columns.value + orders.value + page) == out + columns.value + orders.value + page;
    return Ok(EmptyQuery.(clauses := out + columns.value + orders.value + page));
  }

  method DropNil(hooks: seq<Option<Hook>>) returns (chain: seq<Hook>)
    ensures chain == Present(hooks)
  {
    chain := [];
    assert hooks[0..] == hooks;
    for i := 0 to |hooks|
      invariant chain + Present(hooks[i..]) == Present(hooks)
    {
      assert hooks[i..][1..] == hooks[i + 1..];
      if hooks[i].Some? {
        assert chain + ([hooks[i].value] + Present(hooks[i + 1..])) == (chain + [hooks[i].value]) + Present(hooks[i + 1..]);
        chain := chain + [hooks[i].value];
      } else {
        assert [] + Present(hooks[i + 1..]) == Present(hooks[i + 1..]);
      }
    }
    assert hooks[|hooks|..] == [] && chain + [] == chain;
  }

  method JoinAll(from: seq<string>) returns (out: seq<Clause>)
    requires from != []
    ensures out == Sources(from)
  {
    out := [Clause("", FromTable(from[0]))];
    for i := 1 to |from|
      invariant out + Includes(from[0], from[i..]) == Sources(from)
    {
      assert from[i..][1..] == from[i + 1..];
      ghost var rest := Includes(from[0], from[i + 1..]);
      assert out + ([Include(from[0], from[i])] + rest) == (out + [Include(from[0], from[i])]) + rest;
      out := out + [Include(from[0], from[i])];
    }
    assert from[|from|..] == [] && out + [] == out;
  }

  method ProjectAll(hooks: seq<Hook>, columns: seq<string>) returns (r: Result<seq<Clause>>)
    ensures r == Projections(hooks, columns)
  {
    var out: seq<Clause> := [];
    NothingBefore(Projections(hooks, columns));
    assert columns[0..] == columns;
    for i := 0 to |columns|
      invariant Projections(hooks, columns) == Prefixed(out, Projections(hooks, columns[i..]))
    {
      assert columns[i..][1..] == columns[i + 1..];
      var column := RunChain(SelectStages(hooks), columns[i]);
      if column.Err? { return Err(column.problems); }
      PrefixedTwice(out, [Projected(column.value)], Projections(hooks, columns[i + 1..]));
      out := out + [Projected(column.value)];
    }
    assert columns[|columns|..] == [] && out + [] == out;
    return Ok(out);
  }

  method SortAll(hooks: seq<Hook>, orders: seq<OrderBy>) returns (r: Result<seq<Clause>>)
    ensures r == Sorts(hooks, orders)
  {
    var out: seq<Clause> := [];
    NothingBefore(Sorts(hooks, orders));
    assert orders[0..] == orders;
    for i := 0 to |orders|
      invariant Sorts(hooks, orders) == Prefixed(out, Sorts(hooks, orders[i..]))
    {
      assert orders[i..][1..] == orders[i + 1..];
      var column := RunChain(OrderStages(hooks), orders[i].column);
      if column.Err? { return Err(column.problems); }
      if column.value == "" { return Err([ByRequired]); }
      PrefixedTwice(out, [Sorted(column.value, orders[i].xsc)], Sorts(hooks, orders[i + 1..]));
      out := out + [Sorted(column.value, orders[i].xsc)];
    }
    assert orders[|orders|..] == [] && out + [] == out;
    return Ok(out);
  }

  // ----- hooks can only tighten -------------------------------------------------------------------------

  lemma {:induction false} NoRuleHooks(show: Data -> string, rules: seq<Rule>)
    requires RulesProblems(rules) == []
    ensures ResolveRules(show, [], rules).Ok?
  {
    if rules != [] { NoRuleHooks(show, rules[1..]); }
  }

  lemma {:induction false} NoFilterHooks(show: Data -> string, f: Filter)
    requires FilterProblems(f) == []
    ensures Resolve(show, [], f).Ok?
    decreases f, 1
  {
    NoRuleHooks(show, f.rules);
    NoGroupHooks(show, f.groups);
  }

  lemma {:induction false} NoGroupHooks(show: Data -> string, groups: seq<Filter>)
    requires GroupsProblems(groups) == []
    ensures ResolveGroups(show, [], groups).Ok?
    decreases groups, 0
  {
    if groups != [] {
      NoFilterHooks(show, groups[0]);
      NoGroupHooks(show, groups[1..]);
    }
  }

  lemma {:induction false} NoSelectHooks(columns: seq<string>)
    ensures Projections([], columns).Ok?
  {
    if columns != [] { NoSelectHooks(columns[1..]); }
  }

  lemma {:induction false} NoOrderHooks(orders: seq<OrderBy>)
    requires OrdersProblems(orders) == []
    ensures Sorts([], orders).Ok?
  {
    if orders != [] { NoOrderHooks(orders[1..]); }
  }

  /** Whatever is accepted through hooks is valid, and would be accepted without any;
      without hooks, validity is all it takes. */
  lemma {:induction false} HooksOnlyTighten(show: Data -> string, hooks: seq<Hook>, d: QData)
    ensures ToQuery(show, hooks, d).Ok? ==> Problems(d) == []
    ensures ToQuery(show, [], d).Ok? <==> Problems(d) == []
  {
    if Problems(d) == [] {
      assert ValidFrom(d.from) && OrdersProblems(d.orderBy) == [] && FilterProblems(d.filter) == [];
      NoFilterHooks(show, d.filter);
      NoSelectHooks(d.select);
      NoOrderHooks(d.orderBy);
    }
  }

  // ----- what was converted compiles --------------------------------------------------------------------------

  lemma {:induction false} ProjectionsAre(hooks: seq<Hook>, columns: seq<string>, cl: Clause)
    requires Projections(hooks, columns).Ok? && cl in Projections(hooks, columns).value
    ensures exists column :: cl == Projected(column)
  {
    var first := Projected(Chain(SelectStages(hooks), columns[0]).value);
    if cl == first {
    } else {
      ProjectionsAre(hooks, columns[1..], cl);
    }
  }

  lemma {:induction false} SortsAre(hooks: seq<Hook>, orders: seq<OrderBy>, cl: Clause)
    requires Sorts(hooks, orders).Ok? && cl in Sorts(hooks, orders).value
    ensures exists column, xsc :: cl == Sorted(column, xsc)
  {
    var first := Sorted(Chain(OrderStages(hooks), orders[0].column).value, orders[0].xsc);
    if cl == first {
    } else {
      SortsAre(hooks, orders[1..], cl);
    }
  }

  /** A clause that needs nothing from its surroundings: no operator, value,
      subquery, group or join in it. */
  predicate Bare(cl: Clause) {
    && cl.engine == "" && Tag(cl) !in {From, Where, Having, Cte, Insert, Update, Conflict, Combine}
    && (cl.body.LimitTo? || cl.body.OffsetBy? || cl.body.Aggregated? || cl.body.OrderRaw?
        || cl.body.Column? || cl.body.RawColumn?)
    && (cl.body.Column? || cl.body.RawColumn? ==> cl.body.section == Select)
    && (RawOf(cl).Some? ==> RawOf(cl).value.expression.Written?)
  }

  lemma {:induction false} RestIsBare(hooks: seq<Hook>, d: QData)
    requires Rest(hooks, d).Ok?
    ensures forall cl <- Rest(hooks, d).value :: Bare(cl)
  {
    forall cl | cl in Rest(hooks, d).value ensures Bare(cl) {
      if !d.count {
        if cl in Projections(hooks, d.select).value {
          ProjectionsAre(hooks, d.select, cl);
        } else if cl in Sorts(hooks, d.orderBy).value {
          SortsAre(hooks, d.orderBy, cl);
        }
      }
    }
  }

  lemma {:induction false} BareOk(c: Compiler, cl: Clause)
    requires Bare(cl)
    ensures V.ClauseOk(c, cl, map[]) && BuiltClause(cl)
  {
  }

  lemma {:induction false} SymbolsAllowed(c: Compiler)
    ensures forall op <- Comparisons :: c.Allows(Comparisons[op])
    ensures c.Allows("like")
  {
    assert S.Lower("=") == "=" && S.Lower("!=") == "!=" && S.Lower("<") == "<" && S.Lower(">") == ">";
    assert S.Lower("<=") == "<=" && S.Lower(">=") == ">=" && S.Lower("like") == "like";
  }

  lemma {:induction false} OnOk(c: Compiler, first: string, second: string)
    ensures var on := Clause("", Condition(Where, false, false, TwoColumns(first, "=", second)));
      V.ClauseOk(c, on, map[]) && BuiltClause(on)
  {
    SymbolsAllowed(c);
    assert "eq" in Comparisons && c.Allows(Comparisons["eq"]);
    EqualityOk(c, first, second);
  }

  lemma {:induction false} EqualityOk(c: Compiler, first: string, second: string)
    requires c.Allows("=")
    ensures var on := Clause("", Condition(Where, false, false, TwoColumns(first, "=", second)));
      V.ClauseOk(c, on, map[]) && BuiltClause(on)
  {
  }

  lemma {:induction false} TargetOk(c: Compiler, table: string)
    ensures var target := Clause("", FromTable(table)); V.ClauseOk(c, target, map[]) && BuiltClause(target)
  {
  }

  lemma {:induction false} JoinOk(c: Compiler, target: Clause, on: Clause)
    requires V.ClauseOk(c, target, map[]) && BuiltClause(target) && Tag(target) == From && target.engine == ""
    requires V.ClauseOk(c, on, map[]) && BuiltClause(on)
    ensures var cl := Clause("", Join("INNER JOIN", [target, on])); V.ClauseOk(c, cl, map[]) && BuiltClause(cl)
  {
    hide V.ClauseOk, V.ScopeProblems, BuiltClause;
    JoinScopeOk(c, target, on);
    JoinBuilt(target, on);
    JoinClauseOk(c, [target, on]);
  }

  lemma {:induction false} JoinClauseOk(c: Compiler, cs: seq<Clause>)
    requires V.ScopeProblems(c, cs, true, map[]) == []
    ensures V.ClauseOk(c, Clause("", Join("INNER JOIN", cs)), map[])
  {
    hide V.ScopeProblems, V.ConditionOk, V.CteOk;
    var cl := Clause("", Join("INNER JOIN", cs));
    assert JoinOf(cl) == Some(cs) && SubQueryOf(cl).None? && GroupOf(cl).None?;
    assert V.ClauseProblems(c, cl, map[]) == [];
    assert V.ValuesOf(cl) == [];
  }

  lemma {:induction false} JoinScopeOk(c: Compiler, target: Clause, on: Clause)
    requires V.ClauseOk(c, target, map[]) && V.ClauseOk(c, on, map[])
    ensures V.ScopeProblems(c, [target, on], true, map[]) == []
  {
    hide V.ClauseOk, V.ScopeProblems;
    V.ScopeAccepted(c, [target, on], true, map[]);
  }

  lemma {:induction false} JoinBuilt(target: Clause, on: Clause)
    requires BuiltClause(target) && BuiltClause(on) && Tag(target) == From && target.engine == ""
    ensures BuiltClause(Clause("", Join("INNER JOIN", [target, on])))
  {
    var cs := [target, on];
    assert Built(cs);
    assert target in cs;
  }

  lemma {:induction false} IncludeOk(c: Compiler, primary: string, table: string)
    ensures var cl := Include(primary, table);
      V.ClauseOk(c, cl, map[]) && BuiltClause(cl) && Tag(cl) == Joins && cl.engine == ""
  {
    TargetOk(c, table);
    OnOk(c, primary + "." + table + "_id", table + "." + table + "_id");
    hide V.ClauseOk, BuiltClause;
    JoinOk(c, Clause("", FromTable(table)),
           Clause("", Condition(Where, false, false,
                                TwoColumns(primary + "." + table + "_id", "=", table + "." + table + "_id"))));
  }

  /** Data in which no value is a reference or a literal; decoded JSON is such. */
  predicate PlainTree(g: Resolved)
    requires ReadyTree(g)
    decreases g, 1
  {
    (forall rule <- g.rules :: forall v <- FM.RuleData(rule) :: v.Plain()) && PlainTrees(g.groups)
  }

  predicate PlainTrees(groups: seq<Resolved>)
    requires ReadyTrees(groups)
    decreases groups, 0
  {
    groups == [] || (PlainTree(groups[0]) && PlainTrees(groups[1..]))
  }

  lemma {:induction false} RuleClauseOk(c: Compiler, or: bool, rule: Rule)
    requires Ready(rule) && forall v <- FM.RuleData(rule) :: v.Plain()
    ensures V.ClauseOk(c, RuleClause(or, rule), map[])
  {
    hide RuleShape, Ready, FM.RuleData, V.ShapeValues;
    SymbolsAllowed(c);
    RuleShapeOk(c, rule);
    hide Comparisons, S.Lower;
    PlainShapeOk(c, or, RuleShape(rule).0, RuleShape(rule).1);
  }

  lemma {:induction false} PlainShapeOk(c: Compiler, or: bool, not: bool, shape: Shape)
    requires shape.Basic? || shape.In? || shape.IsNull? || shape.Like?
    requires (shape.Basic? ==> c.Allows(shape.operator)) && (shape.Like? ==> shape.escape == "" && c.Allows("like"))
    requires forall v <- V.ShapeValues(shape) :: v.Plain()
    ensures V.ClauseOk(c, Clause("", Condition(Where, or, not, shape)), map[])
  {
    hide V.ShapeValues;
  }

  lemma {:induction false} RuleShapeOk(c: Compiler, rule: Rule)
    requires Ready(rule) && (forall op <- Comparisons :: c.Allows(Comparisons[op])) && c.Allows("like")
    ensures var shape := RuleShape(rule).1;
      && (shape.Basic? || shape.In? || shape.IsNull? || shape.Like?)
      && (shape.Basic? ==> c.Allows(shape.operator)) && (shape.Like? ==> shape.escape == "" && c.Allows("like"))
      && V.ShapeValues(shape) == if shape.Like? then [] else FM.RuleData(rule)
  {
  }

  lemma {:induction false} RulesOk(c: Compiler, or: bool, rules: seq<Rule>)
    requires forall rule <- rules :: Ready(rule)
    requires forall rule <- rules :: forall v <- FM.RuleData(rule) :: v.Plain()
    ensures forall cl <- RuleClauses(or, rules) :: V.ClauseOk(c, cl, map[])
  {
    hide V.ClauseOk;
    if rules != [] {
      RuleClauseOk(c, or, rules[0]);
      RulesOk(c, or, rules[1..]);
    }
  }

  lemma {:induction false} LandedOk(c: Compiler, g: Resolved)
    requires ReadyTree(g) && PlainTree(g)
    ensures forall cl <- Landed(g) :: V.ClauseOk(c, cl, map[])
    decreases g, 1
  {
    hide V.ClauseOk;
    RulesOk(c, g.or, g.rules);
    GroupsOk(c, g.or, g.groups);
  }

  lemma {:induction false} GroupsOk(c: Compiler, or: bool, groups: seq<Resolved>)
    requires ReadyTrees(groups) && PlainTrees(groups)
    ensures forall cl <- LandedGroups(or, groups) :: V.ClauseOk(c, cl, map[])
    decreases groups, 0
  {
    hide V.ClauseOk;
    if groups != [] {
      LandedOk(c, groups[0]);
      GroupsOk(c, or, groups[1..]);
      FM.AddedGroup(or, groups[0]);
      NestedOk(c, or, Landed(groups[0]));
    }
  }

  lemma {:induction false} NestedOk(c: Compiler, or: bool, inner: seq<Clause>)
    requires forall cl <- inner :: V.ClauseOk(c, cl, map[])
    ensures V.ClauseOk(c, Clause("", Condition(Where, or, false, Nested(EmptyQuery.(clauses := inner)))), map[])
  {
    V.ScopeAccepted(c, inner, true, map[]);
    hide V.ScopeProblems;
  }

  lemma {:induction false} IncludesOk(c: Compiler, primary: string, tables: seq<string>)
    ensures forall cl <- Includes(primary, tables) ::
      V.ClauseOk(c, cl, map[]) && BuiltClause(cl) && Tag(cl) == Joins && cl.engine == ""
  {
    hide V.ClauseOk, BuiltClause;
    if tables != [] {
      IncludeOk(c, primary, tables[0]);
      IncludesOk(c, primary, tables[1..]);
    }
  }

  /** The where list of a converted query is its landed filter, whatever else was
      put on it. */
  lemma {:induction false} ConvertedWhere(show: Data -> string, hooks: seq<Hook>, c: Compiler, d: QData)
    requires ToQuery(show, hooks, d).Ok?
    ensures Resolve(show, hooks, d.filter).Ok? && ReadyTree(Resolve(show, hooks, d.filter).value)
    ensures Components(ToQuery(show, hooks, d).value.clauses, Where, c.Engine())
         == Landed(Resolve(show, hooks, d.filter).value)
  {
    var from := Chain(FromStages(hooks), d.from).value;
    var g := Resolve(show, hooks, d.filter).value;
    ResolvedReady(show, hooks, d.filter);
    var sources, rest := Sources(from), Rest(hooks, d).value;
    IncludesOk(c, from[0], from[1..]);
    RestIsBare(hooks, d);
    FM.LandedAre(g);
    hide Includes, Landed, Rest, V.ClauseOk, BuiltClause, ReadyTree, Bare;
    OnlyLanded(sources, Landed(g), rest, c.Engine());
  }

  lemma {:induction false} OnlyLanded(sources: seq<Clause>, landed: seq<Clause>, rest: seq<Clause>, engine: string)
    requires forall cl <- sources :: Tag(cl) == From || Tag(cl) == Joins
    requires (forall cl <- rest :: Bare(cl)) && (forall cl <- landed :: FM.Landable(cl))
    ensures Components(sources + landed + rest, Where, engine) == landed
  {
    FM.AllSeen(landed, engine);
    ComponentsConcat(sources + landed, rest, Where, engine);
    ComponentsConcat(sources, landed, Where, engine);
    NoComponents(sources, Where, engine);
    forall cl | cl in rest ensures Tag(cl) != Where { assert Bare(cl); }
    NoComponents(rest, Where, engine);
  }

  /** A converted query compiles without error in every dialect, the hooks' rewrites
      included, as long as no data value is a reference or a literal. */
  lemma {:induction false} ConvertedCompiles(show: Data -> string, hooks: seq<Hook>, c: Compiler, d: QData)
    requires ToQuery(show, hooks, d).Ok?
    requires ReadyTree(Resolve(show, hooks, d.filter).value) && PlainTree(Resolve(show, hooks, d.filter).value)
    ensures var q := ToQuery(show, hooks, d).value;
      V.Accepts(c, q) && Built(q.clauses) && q.verb == MethodSelect && q.variables == map[]
  {
    var from := Chain(FromStages(hooks), d.from).value;
    var g := Resolve(show, hooks, d.filter).value;
    var sources, rest := Sources(from), Rest(hooks, d).value;
    var q := ToQuery(show, hooks, d).value;
    var cs := sources + Landed(g) + rest;
    assert q == EmptyQuery.(clauses := cs);
    hide ToQuery, Chain, Resolve, FromStages, Components;
    PartsCompile(hooks, c, d, from, g);
  }

  lemma {:induction false} PartsCompile(hooks: seq<Hook>, c: Compiler, d: QData, from: seq<string>, g: Resolved)
    requires from != [] && Rest(hooks, d).Ok? && ReadyTree(g) && PlainTree(g)
    ensures var q := EmptyQuery.(clauses := Sources(from) + Landed(g) + Rest(hooks, d).value);
      V.Accepts(c, q) && Built(q.clauses)
  {
    hide Landed, Rest, Bare, Includes, V.ClauseOk, ReadyTree, PlainTree, BuiltClause, Components, V.WriteProblems;
    var sources, landed, rest := Sources(from), Landed(g), Rest(hooks, d).value;
    SourcesOk(c, from);
    LandedOk(c, g);
    FM.LandedAre(g);
    FM.LandedBuilt(g);
    RestIsBare(hooks, d);
    forall cl | cl in rest ensures V.ClauseOk(c, cl, map[]) && BuiltClause(cl) { BareOk(c, cl); }
    hide Built;
    AllBuilt(rest);
    FM.BuiltConcat(sources, landed);
    FM.BuiltConcat(sources + landed, rest);
    var cs := sources + landed + rest;
    FirstIsTable(c, from, landed + rest);
    assert sources + (landed + rest) == cs;
    V.ScopeAccepted(c, cs, false, map[]);
    NoConflicts(c, cs, rest, landed, sources);
    hide V.ScopeProblems;
  }

  lemma {:induction false} SourcesOk(c: Compiler, from: seq<string>)
    requires from != []
    ensures Built(Sources(from))
    ensures forall cl <- Sources(from) :: V.ClauseOk(c, cl, map[]) && (Tag(cl) == From || Tag(cl) == Joins)
  {
    hide V.ClauseOk, BuiltClause, Includes;
    TargetOk(c, from[0]);
    IncludesOk(c, from[0], from[1..]);
  }

  lemma {:induction false} AllBuilt(cs: seq<Clause>)
    requires forall cl <- cs :: BuiltClause(cl)
    ensures Built(cs)
  {
    hide BuiltClause;
  }

  lemma {:induction false} FirstIsTable(c: Compiler, from: seq<string>, others: seq<Clause>)
    requires from != []
    ensures One(Sources(from) + others, From, c.Engine()).Some?
  {
    var cs := Sources(from) + others;
    hide Components, One, Includes;
    assert cs[0] in cs && cs[0] == Clause("", FromTable(from[0]));
    UnscopedIsFound(cs, From, c.Engine(), cs[0]);
  }

  lemma {:induction false} NoConflicts(c: Compiler, cs: seq<Clause>, rest: seq<Clause>, landed: seq<Clause>, sources: seq<Clause>)
    requires cs == sources + landed + rest
    requires (forall cl <- rest :: Bare(cl)) && (forall cl <- landed :: FM.Landable(cl))
    requires forall cl <- sources :: Tag(cl) == From || Tag(cl) == Joins
    ensures V.WriteProblems(c, MethodSelect, cs) == []
  {
    forall cl | cl in cs ensures Tag(cl) != Conflict {
      if cl in rest { assert Bare(cl); } else if cl in landed { assert FM.Landable(cl); }
    }
    NoComponents(cs, Conflict, c.Engine());
  }
}
